/** Two clients from their creation on: a server greets both and tells each of the other, whichever connects first. */
module Meeting {
  import opened Basics
  import opened CombinedSequence
  import opened Messages
  import opened Boxes
  import opened Tasks
  import opened Contexts
  import opened Signaling
  import opened Progress
  import opened Opening
  import I = InitiatorProtocol
  import II = InitiatorInvariants
  import IR = InitiatorRuns
  import InitiatorSelection
  import R = ResponderProtocol
  import RI = ResponderInvariants
  import RR = ResponderRuns

  /** What the server uses towards one client: a session key pair, a cookie and three sequence numbers. */
  datatype Greeting = Greeting(session: KeyPair, cookie: Cookie, hello: Csn, auth: Csn, news: Csn)

  /** A signalling path: who meets on it, how they know each other, and what the server says to whom. */
  datatype Path = Path(w: Setup, token: Option<AuthToken>, iDraw: Draw, rDraw: Draw,
                       iPinned: Option<PublicKey>, rPinned: Option<PublicKey>,
                       toI: Greeting, toR: Greeting, listed: seq<Address>, initiatorFirst: bool)

  // ---------- The clients and the server's messages ----------

  function CreatedInitiator(m: Path): I.Initiator {
    var auth := if m.token.Some? then ByToken(m.token.value) else ByTrustedKey(m.w.responder.Public());
    I.Create(m.w.initiator, m.w.iTasks, auth, m.iPinned, m.iDraw)
  }

  function CreatedResponder(m: Path): R.Responder {
    R.Create(m.w.responder, m.w.initiator.Public(), m.token, m.rPinned, m.w.rTasks, m.rDraw, m.w.rTape)
  }

  function HelloBox(g: Greeting): ByteBox {
    ClearBox(ServerHello(g.session.Public()), Nonce(g.cookie, 0, 0, g.hello))
  }

  function ServerBox(g: Greeting, client: KeyPair, to: Address, csn: Csn, m: Message): ByteBox {
    Seal(Encode(m), Nonce(g.cookie, 0, to, csn), g.session, client.Public())
  }

  /** A server whose permanent key the client has pinned signs the session keys. */
  function Signature(g: Greeting, client: KeyPair, to: Address, pinned: Option<PublicKey>): Option<SignedKeys> {
    if pinned.None? then None
    else Some(SignedKeys(pinned.value.id, client.id, Nonce(g.cookie, 0, to, g.auth), g.session.Public(),
                         client.Public()))
  }

  function AuthToInitiator(m: Path): Message {
    ServerAuth(m.iDraw.cookie, Signature(m.toI, m.w.initiator, 1, m.iPinned), Some(m.listed), None)
  }

  function AuthToResponder(m: Path): Message {
    ServerAuth(m.rDraw.cookie, Signature(m.toR, m.w.responder, m.w.a, m.rPinned), None, Some(m.initiatorFirst))
  }

  /** Hello, the list of responders, and news of the responder if it connects later. */
  function ToInitiator(m: Path): seq<ByteBox> {
    [HelloBox(m.toI), ServerBox(m.toI, m.w.initiator, 1, m.toI.auth, AuthToInitiator(m))]
    + if m.initiatorFirst then [ServerBox(m.toI, m.w.initiator, 1, m.toI.news, NewResponder(m.w.a))] else []
  }

  /** Hello, whether the initiator is there, and news of the initiator if it connects later. */
  function ToResponder(m: Path): seq<ByteBox> {
    [HelloBox(m.toR), ServerBox(m.toR, m.w.responder, m.w.a, m.toR.auth, AuthToResponder(m))]
    + if m.initiatorFirst then [] else [ServerBox(m.toR, m.w.responder, m.w.a, m.toR.news, NewInitiator)]
  }

  /** Two created clients with the server's messages on their way to them. */
  function Start(m: Path): Pair {
    Pair(CreatedInitiator(m), CreatedResponder(m), ToInitiator(m), ToResponder(m), [], [], None, None)
  }

  // ---------- What is asked of the surroundings ----------

  ghost predicate Honest(g: Greeting, d: Draw) {
    g.hello.overflow == 0 && g.hello.Less(g.auth) && g.auth.Less(g.news) && g.cookie != d.cookie
  }

  /** Cookies and keys do not collide. */
  ghost predicate FreshDraws(w: Setup) {
    && (forall n: nat :: w.iTape(n).keypair != w.initiator)
    && (forall n: nat :: w.rTape(n).keypair != w.responder)
    && (forall k: nat, n: nat :: w.iTape(k).cookie != w.rTape(n).cookie)
  }

  /** The server lists distinct responder addresses; a responder that was there first is among them. */
  ghost predicate GoodList(m: Path) {
    && NoDup(m.listed)
    && (forall k :: 0 <= k < |m.listed| ==> 2 <= m.listed[k])
    && (!m.initiatorFirst ==> m.w.a in m.listed)
  }

  function ListedSet(m: Path): set<Address> {
    set a | a in m.listed
  }

  /**
   In the order in which the set of listed responders is iterated, this one comes late enough to be retained, at `k`.
   */
  ghost predicate RegistersAt(m: Path, choice: Choice, a: Address, k: nat) {
    var order := choice.order(ListedSet(m));
    FirstKept(m) <= k < |order| && order[k] == a
  }

  ghost predicate Registers(m: Path, choice: Choice, a: Address) {
    exists k: nat :: RegistersAt(m, choice, a, k)
  }

  ghost function FirstKept(m: Path): nat {
    II.FirstKept(CreatedInitiator(m).common, |m.listed|)
  }

  /** The responder is not crowded out by others that connected before the initiator. */
  ghost predicate Keeps(m: Path, choice: Choice) {
    m.initiatorFirst || Registers(m, choice, m.w.a)
  }

  /** There is room for everybody, or the responder comes after the list. */
  predicate Uncrowded(m: Path) {
    m.initiatorFirst || m.token.None? || |m.listed| <= I.MAX_RESPONDERS
  }

  /** With room for everybody, whatever the order, everybody is retained. */
  lemma ListedRegister(m: Path, choice: Choice, a: Address)
    requires GoodList(m) && Uncrowded(m) && !m.initiatorFirst && a in m.listed
    ensures Registers(m, choice, a)
  {
    var order := choice.order(ListedSet(m));
    assert a in ListedSet(m);
    assert a in order;
    var k: nat :| k < |order| && order[k] == a;
    assert RegistersAt(m, choice, a, k);
  }

  lemma UncrowdedKeeps(m: Path, choice: Choice)
    requires GoodList(m) && Uncrowded(m)
    ensures Keeps(m, choice)
  {
    if !m.initiatorFirst { ListedRegister(m, choice, m.w.a); }
  }

  /** A listing with one more address, at any place. */
  function Inserted(q: seq<Address>, a: Address, k: nat): seq<Address> {
    if k <= |q| then q[..k] + [a] + q[k..] else q + [a]
  }

  lemma InsertedLists(q: seq<Address>, s: set<Address>, a: Address, k: nat)
    requires a in s && Lists(q, s - {a})
    ensures Lists(Inserted(q, a, k), s) && (k <= |q| ==> Inserted(q, a, k)[k] == a)
  {
    var j := if k <= |q| then k else |q|;
    var all := Inserted(q, a, k);
    assert all == q[..j] + [a] + q[j..];
    forall x | x in s ensures x in all {
      if x == a {
        assert all[j] == a;
      } else {
        assert x in s - {a};
        var i :| 0 <= i < |q| && q[i] == x;
        assert all[if i < j then i else i + 1] == x;
      }
    }
    forall x | x in all ensures x in s {
      var i :| 0 <= i < |all| && all[i] == x;
      if i != j {
        assert x == q[if i < j then i else i - 1];
        assert x in q && x in s - {a};
      }
    }
  }

  /** A listed responder can come at any place of the order. */
  lemma SomeOrderPlaces(m: Path, k: nat) returns (choice: Choice)
    requires GoodList(m) && !m.initiatorFirst && k < |m.listed|
    ensures choice.initOk && k < |choice.order(ListedSet(m))| && choice.order(ListedSet(m))[k] == m.w.a
  {
    var a := m.w.a;
    forall s: set<Address> | a in s
      ensures Lists(Inserted(SomeListing(s - {a}), a, k), s)
    {
      InsertedLists(SomeListing(s - {a}), s, a, k);
    }
    var order: IterOrder := s => if a in s then Inserted(SomeListing(s - {a}), a, k) else SomeListing(s);
    choice := Choice(order, true);
    ListedLength(m, choice);
    var s := ListedSet(m);
    assert a in s;
    InsertedLists(SomeListing(s - {a}), s, a, k);
    ListingLength(SomeListing(s - {a}), s - {a});
    ListingLength(order(s), s);
  }

  /** Some order keeps the responder. */
  lemma SomeOrderKeeps(m: Path) returns (choice: Choice)
    requires GoodList(m)
    ensures Keeps(m, choice) && choice.initOk
  {
    if m.initiatorFirst {
      var order: IterOrder := s => SomeListing(s);
      choice := Choice(order, true);
    } else {
      choice := SomeOrderPlaces(m, |m.listed| - 1);
      ListedLength(m, choice);
      assert RegistersAt(m, choice, m.w.a, |m.listed| - 1);
    }
  }

  /** On a crowded path some order does not. */
  lemma SomeOrderDrops(m: Path) returns (choice: Choice)
    requires GoodList(m) && !Uncrowded(m)
    ensures !Keeps(m, choice) && choice.initOk
  {
    choice := SomeOrderPlaces(m, 0);
    ListedLength(m, choice);
  }

  lemma ListedLength(m: Path, choice: Choice)
    requires NoDup(m.listed)
    ensures Lists(choice.order(ListedSet(m)), ListedSet(m)) && |choice.order(ListedSet(m))| == |m.listed|
  {
    assert Lists(m.listed, ListedSet(m));
    ListingLength(m.listed, ListedSet(m));
    ListingLength(choice.order(ListedSet(m)), ListedSet(m));
  }

  /** The draw the responder opens with has a start sequence after which there is a 32-bit number left. */
  predicate Audible(m: Path) {
    m.w.rTape(OpeningDraw(m)).start < 0xffff_ffff
  }

  /** A responder that was there first waits for the initiator in a first context and then starts over in a second. */
  function OpeningDraw(m: Path): nat {
    if m.initiatorFirst then 0 else 1
  }

  /** The number of the draw that the initiator can take for the responder. */
  ghost predicate DrawnAt(m: Path, n: nat) {
    if m.initiatorFirst then n == |m.listed| else FirstKept(m) <= n < |m.listed|
  }

  /** So has every draw that the initiator can take for the responder. */
  ghost predicate Answerable(m: Path) {
    forall n: nat :: DrawnAt(m, n) ==> m.w.iTape(n).start < 0xffff_ffff
  }

  /** So has some. */
  ghost predicate CanAnswer(m: Path) {
    exists n: nat :: DrawnAt(m, n) && m.w.iTape(n).start < 0xffff_ffff
  }

  ghost predicate Fits(m: Path) {
    && 2 <= m.w.a
    && Honest(m.toI, m.iDraw) && Honest(m.toR, m.rDraw)
    && FreshDraws(m.w)
    && GoodList(m)
    && m.w.rTasks != [] && NoDup(Names(m.w.rTasks))
  }

  // ---------- The initiator on its way ----------

  ghost predicate SameClient(c: Common, d: Common) {
    && c.permanent == d.permanent && c.auth == d.auth && c.tasks == d.tasks
    && c.server.permanentKey == d.server.permanentKey && c.server.link.ourCookie == d.server.link.ourCookie
  }

  /** The server is known by its session key and cookie, and the given numbers come after what was heard of it. */
  ghost predicate Acquainted(c: Common, g: Greeting, next: Csn) {
    && c.server.sessionKey == Some(g.session.Public())
    && c.server.link.theirCookie == Some(g.cookie)
    && c.server.link.theirCsn.Some? && c.server.link.theirCsn.value.Less(next)
  }

  ghost predicate InitiatorGreeted(m: Path, i: I.Initiator) {
    && II.Valid(i, m.w.iTape)
    && SameClient(i.common, CreatedInitiator(m).common)
    && Acquainted(i.common, m.toI, m.toI.auth)
    && i.common.phase.ServerHandshake? && i.common.server.handshake.ClientInfoSent? && i.common.identity.Unknown?
    && i.common.server.link.ourCsn.Number() <= 0x1_0000_0000
    && i.responders == map[] && i.counter == 0
  }

  /** Past the server handshake, with nothing heard from any responder. */
  ghost predicate InitiatorOnPath(m: Path, i: I.Initiator) {
    && II.Valid(i, m.w.iTape)
    && SameClient(i.common, CreatedInitiator(m).common)
    && i.common.phase.PeerHandshake? && i.common.identity.IsInitiator?
    && i.common.server.link.ourCsn.Number() <= 0x1_0000_0000 + 255
    && AllNew(m, i)
  }

  ghost predicate AllNew(m: Path, i: I.Initiator) {
    AllUntouched(i.responders, m.w.iTape)
  }

  /** Every context is as it was created: its link as drawn, its handshake not begun. */
  ghost predicate AllUntouched(responders: map<Address, ResponderContext>, tape: Tape) {
    forall a :: a in responders ==>
      responders[a].link == FreshLink(tape(responders[a].counter)) && !responders[a].handshake.RKeySent?
  }

  /** There is news to come of the responder. */
  ghost predicate InitiatorWaits(m: Path, i: I.Initiator) {
    && InitiatorOnPath(m, i)
    && Acquainted(i.common, m.toI, m.toI.news)
    && i.common.server.link.ourCsn.Number() <= 0x1_0000_0000 + 254
    && i.counter == |m.listed| && |m.listed| <= 254
  }

  /** How far the initiator has come, by the number of server messages it has yet to receive. */
  ghost predicate InitiatorAt(m: Path, i: I.Initiator, left: nat) {
    var seen := |ToInitiator(m)| - left;
    if seen == 0 then i == CreatedInitiator(m)
    else if seen == 1 then InitiatorGreeted(m, i)
    else if left > 0 then InitiatorWaits(m, i)
    else InitiatorOnPath(m, i) && Registered(m, i)
  }

  ghost predicate Registered(m: Path, i: I.Initiator) {
    m.w.a in i.responders && DrawnAt(m, i.responders[m.w.a].counter)
  }

  /** A message of the server that continues its link reaches the handler, and may assign the identity. */
  lemma InitiatorHearsServer(i: I.Initiator, tape: Tape, b: ByteBox, choice: Choice)
    requires b.nonce.source == 0 && Continues(i.common.server.link, b.nonce)
    requires b.nonce.destination == AddressOf(i.common.identity)
             || (i.common.identity.Unknown? && b.nonce.destination == 1 && !i.common.server.handshake.ServerNew?)
    ensures var t := ServerHeardI(i, b.nonce);
            var d := DecodeServer(t.common, b);
            d.Success? ==>
              I.Next(i, tape, Receive(b, choice)) == I.HandleServerMessage(t, d.value, b.nonce, tape, choice)
  {
    hide Admit;
    hide I.HandleServerMessage;
    AdmitsExactly(i.common.server.link, b.nonce);
  }

  ghost function ServerHeardI(i: I.Initiator, n: Nonce): I.Initiator {
    var identity := if i.common.identity.Unknown? && n.destination == 1 then IsInitiator else i.common.identity;
    i.(common := ServerHeard(i.common, identity, n))
  }

  ghost function ServerHeard(c: Common, identity: ClientIdentity, n: Nonce): Common {
    c.(identity := identity, server := c.server.(link := Heard(c.server.link, n)))
  }

  /** Whatever goes to the server does not go to the peer. */
  lemma ToServerOnly(actions: seq<Action>, to: Address)
    requires to != 0
    requires forall k :: 0 <= k < |actions| && actions[k].Reply? ==> actions[k].box.nonce.destination == 0
    ensures BoxesTo(actions, to) == []
  {
    NoBoxes(actions, to);
  }

  /** Nothing goes to the peer and no error is reported. */
  ghost predicate Quietly(actions: seq<Action>, peer: Address) {
    BoxesTo(actions, peer) == [] && HandshakeError !in actions
  }

  lemma QuietToServer(actions: seq<Action>, peer: Address)
    requires peer != 0
    requires forall k :: 0 <= k < |actions| ==> actions[k].Reply? && actions[k].box.nonce.destination == 0
    ensures Quietly(actions, peer)
  {
    NoBoxes(actions, peer);
  }

  lemma HelloReachesInitiator(m: Path, choice: Choice)
    requires Fits(m)
    ensures var h := I.Next(CreatedInitiator(m), m.w.iTape, Receive(HelloBox(m.toI), choice));
            h.out.Ok? && InitiatorGreeted(m, h.state) && Quietly(h.out.actions, m.w.a)
  {
    hide I.Next;
    hide II.Valid;
    hide Quietly;
    hide FreshDraws;
    hide GoodList;
    hide HandleServerHello;
    var i, b := CreatedInitiator(m), HelloBox(m.toI);
    assert IR.Created(i);
    IR.CreatedIsValid(i, m.w.iTape);
    InitiatorHearsServer(i, m.w.iTape, b, choice);
    var t := ServerHeardI(i, b.nonce);
    HelloAnswered(t.common, false, m.toI.session.Public());
    InitiatorStaysValid(i, m.w.iTape, Receive(b, choice));
    QuietToServer(I.Next(i, m.w.iTape, Receive(b, choice)).out.actions, m.w.a);
  }

  /** Greeting a client that knows no server yet makes it send its hello and its auth, and only those. */
  lemma HelloAnswered(c: Common, responder: bool, key: PublicKey)
    requires c.server.sessionKey.None? && c.server.link.theirCookie.Some?
    requires c.server.link.ourCsn.Number() < 0x1_0000_0000
    ensures var h := Signaling.HandleServerHello(c, responder, key);
            && h.out.Ok?
            && h.state == c.(server := c.server.(sessionKey := Some(key), handshake := ClientInfoSent,
                                                 link := h.state.server.link))
            && h.state.server.link == c.server.link.(ourCsn := h.state.server.link.ourCsn)
            && h.state.server.link.ourCsn.Number() <= c.server.link.ourCsn.Number() + 2
            && (!responder ==> h.state.server.link.ourCsn.Number() == c.server.link.ourCsn.Number() + 1)
            && forall k :: 0 <= k < |h.out.actions| ==>
               h.out.actions[k].Reply? && h.out.actions[k].box.nonce.destination == 0
  {
    hide Csn.Increment;
  }

  /** Registering one more responder succeeds while there are numbers left, and the newcomer's link is as drawn. */
  lemma JoinFits(s: I.Initiator, tape: Tape, a: Address)
    requires II.CoreValid(s, tape) && s.common.server.sessionKey.Some? && 2 <= a && s.counter < I.COUNTER_MAX
    requires s.common.server.link.ourCsn.Number() + 1 < CSN_LIMIT
    requires AllUntouched(s.responders, tape)
    ensures var h := I.ProcessNewResponder(s, a, tape);
            && h.out.Ok? && |h.out.actions| <= 1 && II.ServerSent(s.common, h.state.common, h.out.actions)
            && h.state.counter == s.counter + 1 && a in h.state.responders && h.state.responders[a].counter == s.counter
            && AllUntouched(h.state.responders, tape)
  {
    hide II.CoreValid;
    hide I.ProcessNewResponder;
    hide II.Cleaned;
    JoinHasNumber(s, tape, a);
    II.PathIsCleaned(s, tape, a);
    var h := I.ProcessNewResponder(s, a, tape);
    II.CleanedMap(s, tape, a, h.state, h.out.actions);
    AtMostOneDrop(s, tape, a, h.state, h.out.actions);
  }

  lemma AtMostOneDrop(s: I.Initiator, tape: Tape, a: Address, t: I.Initiator, actions: seq<Action>)
    requires II.Cleaned(s, tape, a, t, actions)
    ensures |actions| <= 1
  {
  }

  lemma JoinHasNumber(s: I.Initiator, tape: Tape, a: Address)
    requires s.common.server.link.ourCsn.Number() + 1 < CSN_LIMIT
    ensures I.ProcessNewResponder(s, a, tape).out != Err(CsnOverflow)
  {
    hide I.OldestBelow;
    hide Csn.Increment;
  }

  lemma {:induction false} RegisterFits(s: I.Initiator, tape: Tape, order: seq<Address>)
    requires II.Valid(s, tape) && s.common.phase.ServerHandshake? && s.common.server.sessionKey.Some?
    requires II.ResponderAddresses(order) && s.common.server.link.ourCsn.Number() + |order| < CSN_LIMIT
    ensures var h := I.RegisterAll(s, order, tape);
            && h.out.Ok?
            && AllUntouched(h.state.responders, tape)
  {
    hide II.Split;
    hide II.CoreValid;
    hide I.ProcessNewResponder;
    if order == [] {
      NothingRegistered(s, tape);
    } else {
      var front, a := order[..|order| - 1], order[|order| - 1];
      RegisterFits(s, tape, front);
      II.RegisterAllSplits(s, tape, front);
      II.AtMost254(order);
      var p := I.RegisterAll(s, front, tape);
      II.SplitCommon(s, front, p.state, p.out.actions);
      FewDrops(s, front, p.state, p.out.actions);
      JoinFits(p.state, tape, a);
    }
  }

  lemma NothingRegistered(s: I.Initiator, tape: Tape)
    requires II.Valid(s, tape) && s.common.phase.ServerHandshake?
    ensures s.responders == map[]
  {
  }

  lemma FewDrops(s: I.Initiator, order: seq<Address>, t: I.Initiator, actions: seq<Action>)
    requires II.Split(s, order, t, actions)
    ensures |actions| <= |order|
    ensures t.common.server.link.ourCsn.Number() <= s.common.server.link.ourCsn.Number() + |order|
    ensures forall a :: a in t.responders <==> II.InWindow(order, II.FirstKept(s.common, |order|), a)
    ensures forall a :: a in t.responders ==>
              II.FirstKept(s.common, |order|) <= t.responders[a].counter < |order|
                  && order[t.responders[a].counter] == a
  {
  }

  /** The server's auth message to the initiator, once admitted, passes all checks. */
  lemma ListPasses(m: Path, t: I.Initiator)
    requires Fits(m) && SameClient(t.common, CreatedInitiator(m).common) && t.common.identity.IsInitiator?
    requires t.common.server.sessionKey == Some(m.toI.session.Public())
    ensures CheckServerAuth(t.common, AuthToInitiator(m), Nonce(m.toI.cookie, 0, 1, m.toI.auth)).None?
    ensures I.ListingPasses(AuthToInitiator(m))
  {
    InitiatorSelection.ListingHasNoDup(AuthToInitiator(m));
  }

  ghost predicate OnlyOursMoved(c: Common, d: Common) {
    d == c.(server := c.server.(link := c.server.link.(ourCsn := d.server.link.ourCsn)))
  }

  ghost predicate AllToServer(actions: seq<Action>) {
    forall k :: 0 <= k < |actions| ==> actions[k].Reply? && actions[k].box.nonce.destination == 0
  }

  lemma SentOnlyMovesOurs(c: Common, d: Common, actions: seq<Action>)
    requires II.ServerSent(c, d, actions)
    ensures OnlyOursMoved(c, d) && AllToServer(actions)
    ensures d.server.link.ourCsn.Number() == c.server.link.ourCsn.Number() + |actions|
  {
  }

  lemma ListRegistered(m: Path, t: I.Initiator, order: seq<Address>)
    requires II.Valid(t, m.w.iTape) && t.common.phase.ServerHandshake? && t.common.server.sessionKey.Some?
    requires II.ResponderAddresses(order) && t.common.server.link.ourCsn.Number() <= 0x1_0000_0000
    ensures var r := I.RegisterAll(t, order, m.w.iTape);
            && r.out.Ok? && AllNew(m, r.state) && r.state.counter == |order| <= 254
            && OnlyOursMoved(t.common, r.state.common)
            && r.state.common.server.link.ourCsn.Number() <= 0x1_0000_0000 + 254
            && AllToServer(r.out.actions)
            && (forall a :: a in r.state.responders <==> II.InWindow(order, II.FirstKept(t.common, |order|), a))
            && (forall a :: a in r.state.responders ==>
                  && II.FirstKept(t.common, |order|) <= r.state.responders[a].counter < |order|
                  && order[r.state.responders[a].counter] == a)
  {
    hide II.Valid;
    hide I.RegisterAll;
    hide II.Split;
    hide II.ServerSent;
    hide II.CoreValid;
    II.AtMost254(order);
    RegisterFits(t, m.w.iTape, order);
    II.RegisterAllSplits(t, m.w.iTape, order);
    var r := I.RegisterAll(t, order, m.w.iTape);
    II.SplitCommon(t, order, r.state, r.out.actions);
    FewDrops(t, order, r.state, r.out.actions);
    SentOnlyMovesOurs(t.common, r.state.common, r.out.actions);
  }

  /** Exactly the responders that come late enough are registered, numbered by their place in the order. */
  ghost predicate AsListed(m: Path, choice: Choice, responders: map<Address, ResponderContext>) {
    && (forall a :: a in responders <==> Registers(m, choice, a))
    && (forall a :: a in responders ==> RegistersAt(m, choice, a, responders[a].counter))
  }

  lemma ListRegisters(m: Path, t: I.Initiator, choice: Choice)
    requires Fits(m) && II.Valid(t, m.w.iTape) && SameClient(t.common, CreatedInitiator(m).common)
    requires t.common.identity.IsInitiator? && Acquainted(t.common, m.toI, m.toI.news)
    requires t.common.phase.ServerHandshake? && t.common.server.handshake.ClientInfoSent?
    requires t.common.server.link.ourCsn.Number() <= 0x1_0000_0000
    ensures var h :=
            I.HandleServerAuth(t, AuthToInitiator(m), Nonce(m.toI.cookie, 0, 1, m.toI.auth), m.w.iTape, choice);
            && h.out.Ok? && (II.Valid(h.state, m.w.iTape) ==> InitiatorWaits(m, h.state))
            && AsListed(m, choice, h.state.responders)
            && Quietly(h.out.actions, m.w.a)
  {
    hide II.Valid;
    hide I.RegisterAll;
    hide CheckServerAuth;
    hide I.ListingPasses;
    hide BoxesTo;
    hide Honest;
    hide FreshDraws;
    hide Names;
    hide Signature;
    hide AsListed;
    hide II.InWindow;
    var msg, nonce := AuthToInitiator(m), Nonce(m.toI.cookie, 0, 1, m.toI.auth);
    ListPasses(m, t);
    var order := choice.order(ListedSet(m));
    II.ListingIsInRange(msg, choice.order);
    ListRegistered(m, t, order);
    var r := I.RegisterAll(t, order, m.w.iTape);
    ToServerOnly(I.HandleServerAuth(t, msg, nonce, m.w.iTape, choice).out.actions, m.w.a);
    WindowIsListed(m, choice, t.common, r.state.responders);
  }

  lemma WindowIsListed(m: Path, choice: Choice, c: Common, responders: map<Address, ResponderContext>)
    requires GoodList(m) && SameClient(c, CreatedInitiator(m).common)
    requires var order := choice.order(ListedSet(m));
             && (forall a :: a in responders <==> II.InWindow(order, II.FirstKept(c, |order|), a))
             && (forall a :: a in responders ==>
                   II.FirstKept(c, |order|) <= responders[a].counter < |order| && order[responders[a].counter] == a)
    ensures |choice.order(ListedSet(m))| == |m.listed| && AsListed(m, choice, responders)
  {
    ListedLength(m, choice);
    var order := choice.order(ListedSet(m));
    forall a | a in responders ensures Registers(m, choice, a) {
      assert RegistersAt(m, choice, a, responders[a].counter);
    }
    forall a | Registers(m, choice, a) ensures a in responders {
      var k: nat :| RegistersAt(m, choice, a, k);
      assert II.InWindow(order, II.FirstKept(c, |order|), a);
    }
  }

  lemma ListedIsDrawn(m: Path, choice: Choice, i: I.Initiator)
    requires Fits(m) && !m.initiatorFirst && AsListed(m, choice, i.responders) && m.w.a in i.responders
    ensures Registered(m, i)
  {
    ListedLength(m, choice);
  }

  lemma AuthReachesInitiator(m: Path, i: I.Initiator, choice: Choice)
    requires Fits(m) && InitiatorGreeted(m, i)
    ensures var h := I.Next(i, m.w.iTape, Receive(ToInitiator(m)[1], choice));
            && h.out.Ok? && InitiatorWaits(m, h.state) && AsListed(m, choice, h.state.responders)
            && Quietly(h.out.actions, m.w.a)
  {
    hide II.Valid;
    hide I.HandleServerAuth;
    hide I.Next;
    hide BoxesTo;
    var b := ToInitiator(m)[1];
    var t := ServerHeardI(i, b.nonce);
    InitiatorHearsServer(i, m.w.iTape, b, choice);
    II.HeardIsValid(i, m.w.iTape, t);
    ListRegisters(m, t, choice);
    assert I.HandleServerMessage(t, AuthToInitiator(m), b.nonce, m.w.iTape, choice)
        == I.HandleServerAuth(t, AuthToInitiator(m), b.nonce, m.w.iTape, choice);
    InitiatorStaysValid(i, m.w.iTape, Receive(b, choice));
  }

  lemma NewsReachesInitiator(m: Path, i: I.Initiator, choice: Choice)
    requires Fits(m) && m.initiatorFirst && InitiatorWaits(m, i)
    ensures var h := I.Next(i, m.w.iTape, Receive(ToInitiator(m)[2], choice));
            && h.out.Ok? && InitiatorOnPath(m, h.state) && Registered(m, h.state)
            && Quietly(h.out.actions, m.w.a)
  {
    hide II.Valid;
    hide I.ProcessNewResponder;
    hide I.Next;
    hide Quietly;
    hide FreshDraws;
    hide GoodList;
    hide NoDup;
    hide AuthToInitiator;
    var b := ToInitiator(m)[2];
    var t := ServerHeardI(i, b.nonce);
    InitiatorHearsServer(i, m.w.iTape, b, choice);
    II.HeardIsValid(i, m.w.iTape, t);
    ServerIsDone(t, m.w.iTape);
    hide II.ServerSent;
    hide II.CoreValid;
    JoinFits(t, m.w.iTape, m.w.a);
    var h := I.ProcessNewResponder(t, m.w.a, m.w.iTape);
    SentOnlyMovesOurs(t.common, h.state.common, h.out.actions);
    InitiatorStaysValid(i, m.w.iTape, Receive(b, choice));
    QuietToServer(I.Next(i, m.w.iTape, Receive(b, choice)).out.actions, m.w.a);
  }

  lemma ServerIsDone(i: I.Initiator, tape: Tape)
    requires II.Valid(i, tape) && i.common.phase.PeerHandshake?
    ensures i.common.server.handshake.ServerDone? && II.CoreValid(i, tape)
  {
  }

  // ---------- The responder on its way ----------

  ghost predicate ResponderGreeted(m: Path, r: R.Responder) {
    && RI.Valid(r, m.w.rTape)
    && SameClient(r.common, CreatedResponder(m).common)
    && Acquainted(r.common, m.toR, m.toR.auth)
    && r.common.phase.ServerHandshake? && r.common.server.handshake.ClientInfoSent? && r.common.identity.Unknown?
    && r.initiator == R.NewContext(m.w.initiator.Public(), m.w.rTape(0)) && r.draws == 1
  }

  /** Past the server handshake, with no initiator so far. */
  ghost predicate ResponderWaits(m: Path, r: R.Responder) {
    && RI.Valid(r, m.w.rTape)
    && SameClient(r.common, CreatedResponder(m).common)
    && Acquainted(r.common, m.toR, m.toR.news)
    && r.common.phase.PeerHandshake? && r.common.identity == IsResponder(m.w.a)
    && r.initiator.permanentKey == m.w.initiator.Public() && r.draws == 1
  }

  /** About to start: the initiator is there, and a new context awaits it. */
  ghost predicate ResponderStarts(m: Path, r: R.Responder) {
    && CanStart(m.w, r)
    && SameClient(r.common, CreatedResponder(m).common)
    && r.draws >= 1 && r.initiator == R.NewContext(m.w.initiator.Public(), m.w.rTape(r.draws - 1))
    && ServerHeardOut(m, r.common)
  }

  /** All the server had to say has been heard. */
  ghost predicate ServerHeardOut(m: Path, c: Common) {
    && c.server.sessionKey == Some(m.toR.session.Public())
    && c.server.link.theirCookie == Some(m.toR.cookie)
    && (c.server.link.theirCsn == Some(m.toR.auth) || c.server.link.theirCsn == Some(m.toR.news))
  }

  /** How far the responder has come, by the number of server messages it has yet to receive. */
  ghost predicate ResponderAt(m: Path, r: R.Responder, left: nat) {
    var seen := |ToResponder(m)| - left;
    if seen == 0 then r == CreatedResponder(m)
    else if seen == 1 then ResponderGreeted(m, r)
    else ResponderWaits(m, r)
  }

  lemma ResponderHearsServer(r: R.Responder, tape: Tape, b: ByteBox, choice: Choice)
    requires b.nonce.source == 0 && Continues(r.common.server.link, b.nonce)
    requires b.nonce.destination == AddressOf(r.common.identity)
             || (r.common.identity.Unknown? && 2 <= b.nonce.destination && !r.common.server.handshake.ServerNew?)
    ensures var t := ServerHeardR(r, b.nonce);
            var d := DecodeServer(t.common, b);
            d.Success? ==> R.Next(r, tape, Receive(b, choice)) == R.HandleServerMessage(t, d.value, b.nonce, tape)
  {
    hide Admit;
    hide R.HandleServerMessage;
    AdmitsExactly(r.common.server.link, b.nonce);
  }

  ghost function ServerHeardR(r: R.Responder, n: Nonce): R.Responder {
    var identity := if r.common.identity.Unknown? && n.destination != 0 then IsResponder(n.destination)
                    else r.common.identity;
    r.(common := ServerHeard(r.common, identity, n))
  }

  lemma HelloReachesResponder(m: Path, choice: Choice)
    requires Fits(m)
    ensures var h := R.Next(CreatedResponder(m), m.w.rTape, Receive(HelloBox(m.toR), choice));
            h.out.Ok? && ResponderGreeted(m, h.state) && BoxesTo(h.out.actions, 1) == []
  {
    var r, b := CreatedResponder(m), HelloBox(m.toR);
    assert RR.Created(r, m.w.rTape);
    RR.StartIsValid(r, m.w.rTape);
    ResponderHearsServer(r, m.w.rTape, b, choice);
    hide R.Next;
    hide RI.Valid;
    var t := ServerHeardR(r, b.nonce);
    HelloAnswered(t.common, true, m.toR.session.Public());
    ResponderStaysValid(r, m.w.rTape, Receive(b, choice));
    ToServerOnly(R.Next(r, m.w.rTape, Receive(b, choice)).out.actions, 1);
  }

  /** The responder as it hears the server's auth message, ready to start if the initiator is there. */
  lemma AuthIsHeard(m: Path, r: R.Responder)
    requires Fits(m) && ResponderGreeted(m, r)
    ensures var b := ToResponder(m)[1];
            var t := ServerHeardR(r, b.nonce);
            && RI.Valid(t, m.w.rTape) && ResponderStarts(m, t)
            && DecodeServer(t.common, b) == Success(AuthToResponder(m))
            && CheckServerAuth(t.common, AuthToResponder(m), b.nonce).None?
            && t.common.server.link.theirCsn == Some(m.toR.auth) && m.toR.auth.Less(m.toR.news)
            && t.common.phase.ServerHandshake? && t.common.server.handshake.ClientInfoSent? && t.draws == 1
  {
    hide Names;
    var b := ToResponder(m)[1];
    var t := ServerHeardR(r, b.nonce);
    RI.FinishedIsValid(t, m.w.rTape, t, []);
  }

  lemma AuthReachesResponder(m: Path, r: R.Responder, choice: Choice)
    requires Fits(m) && ResponderGreeted(m, r)
    ensures var h := R.Next(r, m.w.rTape, Receive(ToResponder(m)[1], choice));
            && h.out.Ok?
            && (if m.initiatorFirst then HasStarted(m, h.state, BoxesTo(h.out.actions, 1))
                else ResponderWaits(m, h.state) && BoxesTo(h.out.actions, 1) == [])
  {
    hide RI.Valid;
    hide R.HandleServerAuth;
    hide R.Next;
    hide DecodeServer;
    hide CheckServerAuth;
    hide CanStart;
    hide Fits;
    hide SameClient;
    hide Acquainted;
    hide BoxesTo;
    hide Continues;
    hide ServerHeardR;
    var b := ToResponder(m)[1];
    var t := ServerHeardR(r, b.nonce);
    AuthIsAdmitted(m, r);
    ResponderHearsServer(r, m.w.rTape, b, choice);
    AuthIsHeard(m, r);
    assert R.Next(r, m.w.rTape, Receive(b, choice)) == R.HandleServerAuth(t, AuthToResponder(m), b.nonce);
    if m.initiatorFirst {
      ServerAuthOpens(m.w, t, AuthToResponder(m), b.nonce);
      var h := R.HandleServerAuth(t, AuthToResponder(m), b.nonce);
      assert StartedFrom(m, t, h.state, BoxesTo(h.out.actions, 1));
    } else {
      AuthLetsWait(m, t, b.nonce);
      ResponderStaysValid(r, m.w.rTape, Receive(b, choice));
    }
  }

  lemma AuthIsAdmitted(m: Path, r: R.Responder)
    requires Fits(m) && ResponderGreeted(m, r)
    ensures var n := ToResponder(m)[1].nonce;
            n.source == 0 && Continues(r.common.server.link, n) && r.common.identity.Unknown? && 2 <= n.destination
            && !r.common.server.handshake.ServerNew?
  {
  }

  lemma AuthLetsWait(m: Path, t: R.Responder, nonce: Nonce)
    requires ResponderStarts(m, t) && !m.initiatorFirst && m.toR.auth.Less(m.toR.news)
    requires CheckServerAuth(t.common, AuthToResponder(m), nonce).None? && t.common.phase.ServerHandshake?
    requires t.common.server.link.theirCsn == Some(m.toR.auth) && t.draws == 1
    ensures var h := R.HandleServerAuth(t, AuthToResponder(m), nonce);
            && h.out.Ok? && BoxesTo(h.out.actions, 1) == []
            && (RI.Valid(h.state, m.w.rTape) ==> ResponderWaits(m, h.state))
  {
    hide RI.Valid;
    hide CheckServerAuth;
    hide R.StartPeerHandshake;
    hide Signature;
    OneBox(Notify(ServerHandshakeDone(false)), 1);
    assert [] + [Notify(ServerHandshakeDone(false))] == [Notify(ServerHandshakeDone(false))];
  }

  /** The responder has started and these boxes are what it sent. */
  ghost predicate HasStarted(m: Path, r: R.Responder, boxes: seq<ByteBox>) {
    exists r0 :: StartedFrom(m, r0, r, boxes)
  }

  ghost predicate StartedFrom(m: Path, r0: R.Responder, r: R.Responder, boxes: seq<ByteBox>) {
    ResponderStarts(m, r0) && r0.draws == OpeningDraw(m) + 1 && r == Opened(r0) && boxes == OpeningBoxes(r0)
  }

  lemma NewsIsHeard(m: Path, r: R.Responder)
    requires Fits(m) && !m.initiatorFirst && ResponderWaits(m, r)
    ensures var b := ToResponder(m)[2];
            var t := ServerHeardR(r, b.nonce);
            && ResponderStarts(m, RI.Restarted(t, m.w.rTape)) && RI.Restarted(t, m.w.rTape).draws == 2
            && DecodeServer(t.common, b) == Success(NewInitiator)
            && t.common.phase.PeerHandshake? && t.common.server.handshake.ServerDone?
  {
    hide RI.Valid;
    hide DecodeServer;
    hide ResponderStarts;
    hide ResponderWaits;
    hide Fits;
    NewsDecodes(m, r);
    NewsPrepares(m, r, ToResponder(m)[2].nonce);
  }

  lemma NewsDecodes(m: Path, r: R.Responder)
    requires !m.initiatorFirst && ResponderWaits(m, r)
    ensures DecodeServer(ServerHeardR(r, ToResponder(m)[2].nonce).common, ToResponder(m)[2]) == Success(NewInitiator)
  {
    hide RI.Valid;
    hide AuthToResponder;
  }

  lemma NewsPrepares(m: Path, r: R.Responder, n: Nonce)
    requires Fits(m) && ResponderWaits(m, r) && n == Nonce(m.toR.cookie, 0, m.w.a, m.toR.news)
    ensures var t := ServerHeardR(r, n);
            && ResponderStarts(m, RI.Restarted(t, m.w.rTape)) && RI.Restarted(t, m.w.rTape).draws == 2
            && t.common.phase.PeerHandshake? && t.common.server.handshake.ServerDone?
  {
    hide Fits;
    hide ResponderWaits;
    hide ServerHeardR;
    hide RI.Restarted;
    hide CanStart;
    hide SameClient;
    hide ServerHeardOut;
    hide RI.Valid;
    WaitingIsSet(m, r);
    RestartedIsValid(m, r, n);
    RestartedCanStart(m, r, n);
    RestartedIsAcquainted(m, r, n);
  }

  lemma RestartedIsAcquainted(m: Path, r: R.Responder, n: Nonce)
    requires ResponderWaits(m, r) && n == Nonce(m.toR.cookie, 0, m.w.a, m.toR.news)
    ensures var t := ServerHeardR(r, n);
            var q := RI.Restarted(t, m.w.rTape);
            && t.common.phase.PeerHandshake? && t.common.server.handshake.ServerDone?
            && SameClient(q.common, CreatedResponder(m).common) && ServerHeardOut(m, q.common)
            && q.draws == 2 && q.initiator == R.NewContext(m.w.initiator.Public(), m.w.rTape(q.draws - 1))
  {
    RestartedIsValid(m, r, n);
    hide RI.Valid;
  }

  lemma RestartedCanStart(m: Path, r: R.Responder, n: Nonce)
    requires RI.Valid(r, m.w.rTape) && r.common.auth.Some? && r.common.tasks == Some(m.w.rTasks)
    requires r.common.identity == IsResponder(m.w.a) && r.common.permanent == m.w.responder
    requires r.initiator.permanentKey == m.w.initiator.Public()
    requires RI.Valid(RI.Finished(RI.Restarted(ServerHeardR(r, n), m.w.rTape)), m.w.rTape)
    ensures CanStart(m.w, RI.Restarted(ServerHeardR(r, n), m.w.rTape))
  {
    hide RI.Valid;
  }

  /** A responder that waits still has what it was created with. */
  lemma WaitingIsSet(m: Path, r: R.Responder)
    requires ResponderWaits(m, r)
    ensures RI.Valid(r, m.w.rTape) && r.common.phase.PeerHandshake? && r.common.identity == IsResponder(m.w.a)
    ensures r.common.auth.Some? && r.common.tasks == Some(m.w.rTasks) && r.common.permanent == m.w.responder
    ensures r.initiator.permanentKey == m.w.initiator.Public()
  {
    hide RI.Valid;
  }

  lemma RestartedIsValid(m: Path, r: R.Responder, n: Nonce)
    requires RI.Valid(r, m.w.rTape) && r.common.phase.PeerHandshake? && r.common.identity.IsResponder?
    ensures r.common.server.handshake.ServerDone?
    ensures RI.Valid(RI.Finished(RI.Restarted(ServerHeardR(r, n), m.w.rTape)), m.w.rTape)
  {
  }

  lemma NewsReachesResponder(m: Path, r: R.Responder, choice: Choice)
    requires Fits(m) && !m.initiatorFirst && ResponderWaits(m, r)
    ensures var h := R.Next(r, m.w.rTape, Receive(ToResponder(m)[2], choice));
            h.out.Ok? && HasStarted(m, h.state, BoxesTo(h.out.actions, 1))
  {
    hide RI.Valid;
    hide R.HandleNewInitiator;
    hide R.Next;
    hide DecodeServer;
    hide CanStart;
    var b := ToResponder(m)[2];
    var t := ServerHeardR(r, b.nonce);
    ResponderHearsServer(r, m.w.rTape, b, choice);
    NewsIsHeard(m, r);
    NewInitiatorOpens(m.w, t);
    var h := R.Next(r, m.w.rTape, Receive(b, choice));
    assert StartedFrom(m, RI.Restarted(t, m.w.rTape), h.state, BoxesTo(h.out.actions, 1));
  }
}
