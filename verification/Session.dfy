/** Whole sessions of two clients, from creation to the task phase, under every schedule of deliveries. */
module Session {
  import opened Basics
  import opened Boxes
  import opened Tasks
  import opened Negotiation
  import opened Contexts
  import opened Signaling
  import opened Progression
  import opened Progress
  import opened Opening
  import opened Meeting
  import I = InitiatorProtocol
  import II = InitiatorInvariants
  import R = ResponderProtocol
  import RI = ResponderInvariants

  /** The last `left` of the server's messages. */
  function Rest(boxes: seq<ByteBox>, left: nat): seq<ByteBox>
    requires left <= |boxes|
  {
    boxes[|boxes| - left..]
  }

  /** The server still has messages on their way; what the responder sends early queues up behind them. */
  ghost predicate Gathering(m: Path, p: Pair, toI: nat, toR: nat) {
    && toI <= |ToInitiator(m)| && toR <= |ToResponder(m)|
    && p.iError.None? && p.rError.None? && HandshakeError !in p.iLog
    && InitiatorAt(m, p.i, toI)
    && p.toR == Rest(ToResponder(m), toR)
    && (if toR > 0 then ResponderAt(m, p.r, toR) && p.toI == Rest(ToInitiator(m), toI)
        else exists boxes :: HasStarted(m, p.r, boxes) && p.toI == Rest(ToInitiator(m), toI) + boxes)
  }

  /** How many messages the clients exchange after that. */
  function Exchange(m: Path): nat {
    if m.token.Some? then 5 else 4
  }

  /** How many of them the responder opens with. */
  function Openings(m: Path): nat {
    if m.token.Some? then 2 else 1
  }

  /** A session with `left` deliveries to go. */
  ghost predicate Underway(m: Path, p: Pair, left: nat) {
    || (exists toI: nat, toR: nat :: toI + toR > 0 && left == toI + toR + Exchange(m) && Gathering(m, p, toI, toR))
    || (left <= Exchange(m) && Audible(m) && CanAnswer(m) && Stage(m.w, p, left) && ServerHeardOut(m, p.r.common))
  }

  lemma StartGathering(m: Path)
    ensures Gathering(m, Start(m), |ToInitiator(m)|, |ToResponder(m)|)
  {
    hide CreatedInitiator;
    hide CreatedResponder;
    hide InitiatorGreeted;
    hide InitiatorOnPath;
    hide ResponderGreeted;
    hide ResponderWaits;
    hide HasStarted;
    hide HelloBox;
    hide ServerBox;
    var toI, toR := ToInitiator(m), ToResponder(m);
    assert Rest(toI, |toI|) == toI && Rest(toR, |toR|) == toR;
  }

  lemma StartGathers(m: Path)
    ensures Underway(m, Start(m), |ToInitiator(m)| + |ToResponder(m)| + Exchange(m))
  {
    hide Gathering;
    hide Stage;
    hide ServerHeardOut;
    StartGathering(m);
  }

  /** Once the server has said everything, the exchange between the clients is on. */
  lemma GatheredIsStaged(m: Path, p: Pair)
    requires Fits(m) && Gathering(m, p, 0, 0) && Audible(m)
    ensures if WillOpen(m.w, p) then CanAnswer(m) && Stage(m.w, p, Exchange(m)) && ServerHeardOut(m, p.r.common)
            else !Answerable(m) && Overrun(m.w, p, Exchange(m) - 2)
  {
    hide II.Valid;
    hide RI.Valid;
    hide Stage;
    hide Overrun;
    hide R.StartPeerHandshake;
    var boxes :| HasStarted(m, p.r, boxes) && p.toI == Rest(ToInitiator(m), 0) + boxes;
    var r0 :| StartedFrom(m, r0, p.r, boxes);
    assert p.toI == boxes;
    GatheredIsReady(m, p.i, r0);
    OpeningIsStaged(m.w, p.i, r0, p);
    StartSucceeds(m.w, r0);
    DrawDecides(m, p);
  }

  /** Whether the initiator's first number is fit for a first message depends on the draw it has for the responder. */
  lemma DrawDecides(m: Path, p: Pair)
    requires InitiatorOnPath(m, p.i) && Registered(m, p.i)
    ensures if WillOpen(m.w, p) then CanAnswer(m) else !Answerable(m)
  {
    hide II.Valid;
    hide DrawnAt;
    var n := p.i.responders[m.w.a].counter;
    assert DrawnAt(m, n);
    assert WillOpen(m.w, p) <==> m.w.iTape(n).start < 0xffff_ffff;
  }

  lemma GatheredIsReady(m: Path, i: I.Initiator, r: R.Responder)
    requires Fits(m) && InitiatorOnPath(m, i) && m.w.a in i.responders && ResponderStarts(m, r)
    requires Audible(m) && r.draws == OpeningDraw(m) + 1
    ensures Ready(m.w, i, r) && (SpendableToken(r.common) <==> m.token.Some?)
  {
    hide RI.Valid;
    hide CanStart;
    II.MapGives(i, m.w.iTape, m.w.a);
    forall a | a in i.responders.Keys ensures 2 <= a < 256 { II.MapGives(i, m.w.iTape, a); }
    BoundedSize(i.responders.Keys, 2, 256);
    TrustedContext(i, m.w.iTape, m.w.a);
    hide II.Valid;
  }

  lemma TrustedContext(i: I.Initiator, tape: Tape, a: Address)
    requires II.Valid(i, tape) && a in i.responders && !i.responders[a].handshake.RKeySent?
    ensures Trusted(i.common) ==>
              i.responders[a].permanentKey == Some(i.common.auth.value.key) && i.responders[a].handshake.TokenReceived?
  {
  }

  /** The initiator is past the server handshake and has dropped the responder unheard. */
  ghost predicate InitiatorMissed(m: Path, i: I.Initiator) {
    InitiatorOnPath(m, i) && m.w.a !in i.responders
  }

  // ---------- While the server has messages on their way ----------

  /**
   The initiator accepts the server's next message and answers only to the server. If the responder is crowded out, that
   is when it happens.
   */
  lemma InitiatorAdvances(m: Path, i: I.Initiator, left: nat, choice: Choice)
    requires Fits(m) && 0 < left <= |ToInitiator(m)| && InitiatorAt(m, i, left)
    ensures var h := I.Next(i, m.w.iTape, Receive(Rest(ToInitiator(m), left)[0], choice));
            && h.out.Ok? && Quietly(h.out.actions, m.w.a)
            && (if left == 1 && !Keeps(m, choice) then InitiatorMissed(m, h.state)
                else InitiatorAt(m, h.state, left - 1))
  {
    hide I.Next;
    hide Quietly;
    hide Registers;
    hide Registered;
    hide Fits;
    hide InitiatorGreeted;
    hide InitiatorOnPath;
    hide CreatedInitiator;
    hide HelloBox;
    hide ServerBox;
    hide AuthToInitiator;
    var seen := |ToInitiator(m)| - left;
    assert Rest(ToInitiator(m), left)[0] == ToInitiator(m)[seen];
    if seen == 0 {
      HelloReachesInitiator(m, choice);
    } else if seen == 1 {
      ListAdvances(m, i, choice);
    } else {
      NewsReachesInitiator(m, i, choice);
    }
  }

  /** After the list there is news to come, or the responder was on it and is kept or dropped. */
  lemma ListAdvances(m: Path, i: I.Initiator, choice: Choice)
    requires Fits(m) && InitiatorGreeted(m, i)
    ensures var h := I.Next(i, m.w.iTape, Receive(ToInitiator(m)[1], choice));
            && h.out.Ok? && Quietly(h.out.actions, m.w.a) && InitiatorWaits(m, h.state)
            && (!m.initiatorFirst ==> if Keeps(m, choice) then Registered(m, h.state) else InitiatorMissed(m, h.state))
  {
    hide I.Next;
    hide Quietly;
    hide Registers;
    hide RegistersAt;
    hide Fits;
    hide InitiatorGreeted;
    hide InitiatorOnPath;
    hide Registered;
    hide CreatedInitiator;
    hide HelloBox;
    hide ServerBox;
    hide AuthToInitiator;
    AuthReachesInitiator(m, i, choice);
    if !m.initiatorFirst && Keeps(m, choice) {
      ListedIsDrawn(m, choice, I.Next(i, m.w.iTape, Receive(ToInitiator(m)[1], choice)).state);
    }
  }

  /** The responder accepts the server's next message; the last one makes it start. */
  lemma ResponderAdvances(m: Path, r: R.Responder, left: nat, choice: Choice)
    requires Fits(m) && 0 < left <= |ToResponder(m)| && ResponderAt(m, r, left)
    ensures var h := R.Next(r, m.w.rTape, Receive(Rest(ToResponder(m), left)[0], choice));
            && h.out.Ok?
            && (if left == 1 then HasStarted(m, h.state, BoxesTo(h.out.actions, 1))
                else ResponderAt(m, h.state, left - 1) && BoxesTo(h.out.actions, 1) == [])
  {
    hide R.Next;
    hide BoxesTo;
    hide Fits;
    hide ResponderGreeted;
    hide ResponderWaits;
    hide HasStarted;
    hide CreatedResponder;
    var seen := |ToResponder(m)| - left;
    assert Rest(ToResponder(m), left)[0] == ToResponder(m)[seen];
    if seen == 0 {
      HelloReachesResponder(m, choice);
    } else if seen == 1 {
      AuthReachesResponder(m, r, choice);
    } else {
      NewsReachesResponder(m, r, choice);
    }
  }

  /** Taking the next of the server's messages off a queue leaves the rest of them and whatever is behind. */
  lemma HeadAndTail(all: seq<ByteBox>, left: nat, behind: seq<ByteBox>)
    requires 0 < left <= |all|
    ensures (Rest(all, left) + behind)[0] == Rest(all, left)[0]
    ensures (Rest(all, left) + behind)[1..] == Rest(all, left - 1) + behind
  {
  }

  lemma GatheringToInitiator(m: Path, p: Pair, toI: nat, toR: nat, choice: Choice)
    requires Fits(m) && Gathering(m, p, toI, toR) && toI > 0
    ensures var q := Deliver(m.w, p, Delivery(true, choice));
            if toI == 1 && !Keeps(m, choice) then Crowded(m, q, toR) else Gathering(m, q, toI - 1, toR)
  {
    hide I.Next;
    hide Quietly;
    hide Fits;
    hide InitiatorAt;
    hide InitiatorMissed;
    hide Keeps;
    hide ResponderAt;
    hide HasStarted;
    hide ToInitiator;
    hide ToResponder;
    var all := ToInitiator(m);
    InitiatorAdvances(m, p.i, toI, choice);
    var q := Deliver(m.w, p, Delivery(true, choice));
    if toR == 0 {
      var boxes :| HasStarted(m, p.r, boxes) && p.toI == Rest(all, toI) + boxes;
      HeadAndTail(all, toI, boxes);
      assert q.toI == Rest(all, toI - 1) + boxes;
      assert Rest(all, 0) + boxes == boxes == boxes[0..];
    } else {
      HeadAndTail(all, toI, []);
      assert p.toI == Rest(all, toI) + [];
    }
    QuietStep(p, q, I.Next(p.i, m.w.iTape, Receive(p.toI[0], choice)).out.actions, m.w.a);
  }

  lemma QuietStep(p: Pair, q: Pair, actions: seq<Action>, a: Address)
    requires Quietly(actions, a) && HandshakeError !in p.iLog
    requires q.iLog == p.iLog + actions && q.toR == p.toR + BoxesTo(actions, a)
    ensures HandshakeError !in q.iLog && q.toR == p.toR
  {
  }

  lemma GatheringToResponder(m: Path, p: Pair, toI: nat, toR: nat, choice: Choice)
    requires Fits(m) && Gathering(m, p, toI, toR) && toR > 0
    ensures Gathering(m, Deliver(m.w, p, Delivery(false, choice)), toI, toR - 1)
  {
    hide R.Next;
    hide BoxesTo;
    hide Fits;
    hide InitiatorAt;
    hide ResponderAt;
    hide HasStarted;
    hide ToInitiator;
    hide ToResponder;
    var all := ToResponder(m);
    ResponderAdvances(m, p.r, toR, choice);
    HeadAndTail(all, toR, []);
    assert p.toR == Rest(all, toR) + [];
    var q := Deliver(m.w, p, Delivery(false, choice));
    assert q.toR == Rest(all, toR - 1);
    var sent := BoxesTo(R.Next(p.r, m.w.rTape, Receive(p.toR[0], choice)).out.actions, 1);
    assert q.toI == p.toI + sent;
  }

  // ---------- A responder that is crowded out ----------

  /** The initiator has dropped the responder unheard; whatever that sends is ignored. */
  ghost predicate Crowded(m: Path, p: Pair, toR: nat) {
    && toR <= |ToResponder(m)|
    && p.iError.None? && p.rError.None? && HandshakeError !in p.iLog
    && InitiatorMissed(m, p.i)
    && p.toR == Rest(ToResponder(m), toR)
    && (if toR > 0 then ResponderAt(m, p.r, toR) && p.toI == []
        else exists boxes, k: nat :: HasStarted(m, p.r, boxes) && k <= |boxes| && p.toI == boxes[k..])
  }

  /** What the responder sends at the start comes from its address; with a token these are two messages. */
  lemma OpeningIsAddressed(m: Path, r: R.Responder, boxes: seq<ByteBox>)
    requires HasStarted(m, r, boxes)
    ensures forall k :: 0 <= k < |boxes| ==> boxes[k].nonce.source == m.w.a && boxes[k].nonce.destination == 1
    ensures |boxes| == Openings(m) && (boxes[0].nonce.csn.overflow == 0 <==> Audible(m))
    ensures r.common.phase.PeerHandshake?
  {
    hide R.StartPeerHandshake;
    hide BoxesTo;
    hide After;
    hide RI.Valid;
    var r0 :| StartedFrom(m, r0, r, boxes);
    StartSucceeds(m.w, r0);
    if SpendableToken(r0.common) {
      TokenOpens(m.w, r0, r0.common.auth.value.token);
      TwoBoxes(R.StartPeerHandshake(r0).out.actions, 1);
    } else {
      KeyOpens(m.w, r0);
      OneBox(R.StartPeerHandshake(r0).out.actions[0], 1);
    }
  }

  /** A message from a responder that is not registered is dropped and changes nothing. */
  lemma UnknownIsIgnored(m: Path, i: I.Initiator, b: ByteBox, choice: Choice)
    requires 2 <= m.w.a && InitiatorMissed(m, i) && b.nonce.source == m.w.a && b.nonce.destination == 1
    ensures I.Next(i, m.w.iTape, Receive(b, choice)) == Step(i, Ok([]))
  {
    hide II.Valid;
  }

  lemma CrowdedToInitiator(m: Path, p: Pair, toR: nat, choice: Choice)
    requires Fits(m) && Crowded(m, p, toR) && p.toI != []
    ensures var q := Deliver(m.w, p, Delivery(true, choice));
            Crowded(m, q, toR) && toR == 0 && |q.toI| == |p.toI| - 1
  {
    hide I.Next;
    hide InitiatorMissed;
    hide ResponderAt;
    hide HasStarted;
    hide ToInitiator;
    hide ToResponder;
    hide FreshDraws;
    hide GoodList;
    hide Names;
    var boxes, k: nat :| HasStarted(m, p.r, boxes) && k <= |boxes| && p.toI == boxes[k..];
    OpeningIsAddressed(m, p.r, boxes);
    UnknownIsIgnored(m, p.i, p.toI[0], choice);
    var q := Deliver(m.w, p, Delivery(true, choice));
    assert q.toI == boxes[k + 1..];
    assert q.toR == p.toR + [] == p.toR;
    assert q.iLog == p.iLog + [] == p.iLog;
  }

  lemma CrowdedToResponder(m: Path, p: Pair, toR: nat, choice: Choice)
    requires Fits(m) && Crowded(m, p, toR) && toR > 0
    ensures var q := Deliver(m.w, p, Delivery(false, choice));
            Crowded(m, q, toR - 1) && (toR == 1 ==> |q.toI| == Openings(m))
  {
    hide R.Next;
    hide BoxesTo;
    hide Fits;
    hide InitiatorMissed;
    hide ResponderAt;
    hide HasStarted;
    hide ToInitiator;
    hide ToResponder;
    var all := ToResponder(m);
    ResponderAdvances(m, p.r, toR, choice);
    HeadAndTail(all, toR, []);
    assert p.toR == Rest(all, toR) + [];
    var q := Deliver(m.w, p, Delivery(false, choice));
    var sent := BoxesTo(R.Next(p.r, m.w.rTape, Receive(p.toR[0], choice)).out.actions, 1);
    assert q.toI == p.toI + sent == sent;
    if toR == 1 {
      OpeningIsAddressed(m, q.r, sent);
      assert sent == sent[0..];
    }
  }

  /** Such a session has at most this many deliveries to go. */
  ghost predicate Missed(m: Path, p: Pair, left: nat) {
    exists toR: nat :: Crowded(m, p, toR) && toR + (if toR > 0 then Openings(m) else |p.toI|) <= left
  }

  lemma MissedAdvances(m: Path, p: Pair, left: nat, d: Delivery)
    requires Fits(m) && Missed(m, p, left)
    ensures Deliver(m.w, p, d) == p || (left > 0 && Missed(m, Deliver(m.w, p, d), left - 1))
  {
    hide Fits;
    hide Crowded;
    hide I.Next;
    hide R.Next;
    var toR: nat :| Crowded(m, p, toR) && toR + (if toR > 0 then Openings(m) else |p.toI|) <= left;
    CrowdedQueues(m, p, toR);
    if d.toInitiator && p.toI != [] {
      CrowdedToInitiator(m, p, toR, d.choice);
    } else if !d.toInitiator && toR > 0 {
      CrowdedToResponder(m, p, toR, d.choice);
    }
  }

  lemma CrowdedQueues(m: Path, p: Pair, toR: nat)
    requires Crowded(m, p, toR)
    ensures |p.toR| == toR && (toR > 0 ==> p.toI == [])
    ensures p.iError.None? && p.rError.None?
  {
    hide InitiatorMissed;
    hide ResponderAt;
    hide HasStarted;
    hide ToResponder;
  }

  /** Nothing is on its way, nobody has reported anything, and nothing more will happen between the two. */
  ghost predicate Stranded(m: Path, p: Pair) {
    && p.toI == [] && p.toR == []
    && p.iError.None? && p.rError.None? && HandshakeError !in p.iLog
    && p.i.common.phase.PeerHandshake? && p.r.common.phase.PeerHandshake?
    && m.w.a !in p.i.responders
  }

  lemma MissedStrands(m: Path, p: Pair, left: nat)
    requires Missed(m, p, left) && p.toI == [] && p.toR == []
    ensures Stranded(m, p)
  {
    hide ResponderAt;
    hide HasStarted;
    hide ToResponder;
    hide II.Valid;
    var toR: nat :| Crowded(m, p, toR) && toR + (if toR > 0 then Openings(m) else |p.toI|) <= left;
    CrowdedQueues(m, p, toR);
    var boxes, k: nat :| HasStarted(m, p.r, boxes) && k <= |boxes| && p.toI == boxes[k..];
    OpeningIsAddressed(m, p.r, boxes);
  }

  /** A client that is crowded out, and the one that did so, do not get to the task phase. */
  lemma MissedIsEarly(m: Path, p: Pair, left: nat)
    requires Missed(m, p, left)
    ensures !p.i.common.phase.TaskPhase? && !p.r.common.phase.TaskPhase?
  {
    hide ToResponder;
    hide II.Valid;
    hide HasStarted;
    hide ResponderAt;
    var toR: nat :| Crowded(m, p, toR) && toR + (if toR > 0 then Openings(m) else |p.toI|) <= left;
    if toR == 0 {
      var boxes, k: nat :| HasStarted(m, p.r, boxes) && k <= |boxes| && p.toI == boxes[k..];
      OpeningIsAddressed(m, p.r, boxes);
    } else {
      ResponderIsEarly(m, p.r, toR);
    }
  }

  // ---------- A client whose first message is refused ----------

  /** The initiator has refused the responder's first message and stopped; nothing is on its way to the responder. */
  ghost predicate Refused(p: Pair) {
    && p.iError == Some(InvalidNonce) && p.rError.None?
    && p.i.common.phase.PeerHandshake? && p.r.common.phase.PeerHandshake?
    && p.toR == []
  }

  /** The first message of one client has a number that the other will refuse, or has refused. */
  ghost predicate Failing(m: Path, p: Pair, left: nat) {
    || (!Audible(m) && (Refused(p) || (left > 0 && Gathering(m, p, 0, 0))))
    || (!Answerable(m) && exists k: nat :: k <= left && Overrun(m.w, p, k))
  }

  /** The responder's first message is next, and everything else has been heard. */
  lemma FirstIsNext(m: Path, p: Pair)
    requires Gathering(m, p, 0, 0)
    ensures p.iError.None? && p.rError.None? && p.toR == [] && p.toI != []
    ensures InitiatorOnPath(m, p.i) && m.w.a in p.i.responders && p.r.common.phase.PeerHandshake?
    ensures p.toI[0].nonce.source == m.w.a && p.toI[0].nonce.destination == 1
    ensures p.toI[0].nonce.csn.overflow == 0 <==> Audible(m)
  {
    hide InitiatorOnPath;
    hide HasStarted;
    hide Audible;
    hide HelloBox;
    hide ServerBox;
    hide ToResponder;
    var boxes :| HasStarted(m, p.r, boxes) && p.toI == Rest(ToInitiator(m), 0) + boxes;
    OpeningIsAddressed(m, p.r, boxes);
    assert p.toI == boxes;
  }

  lemma FirstIsRefused(m: Path, p: Pair, choice: Choice)
    requires 2 <= m.w.a && Gathering(m, p, 0, 0) && !Audible(m)
    ensures p.toI != [] && p.toR == [] && Refused(Deliver(m.w, p, Delivery(true, choice)))
  {
    hide I.Next;
    hide InitiatorOnPath;
    hide Gathering;
    hide Audible;
    FirstIsNext(m, p);
    NumberIsRefused(m, p.i, p.toI[0], choice);
  }

  lemma NumberIsRefused(m: Path, i: I.Initiator, b: ByteBox, choice: Choice)
    requires 2 <= m.w.a && InitiatorOnPath(m, i) && m.w.a in i.responders
    requires b.nonce.source == m.w.a && b.nonce.destination == 1 && b.nonce.csn.overflow != 0
    ensures var h := I.Next(i, m.w.iTape, Receive(b, choice));
            h.out == Err(InvalidNonce) && h.state.common.phase.PeerHandshake?
  {
    hide II.Valid;
    hide Admit;
    hide I.HandleValid;
    AdmitsExactly(i.responders[m.w.a].link, b.nonce);
  }

  lemma FailingAdvances(m: Path, p: Pair, left: nat, d: Delivery)
    requires Fits(m) && Failing(m, p, left)
    ensures Deliver(m.w, p, d) == p || (left > 0 && Failing(m, Deliver(m.w, p, d), left - 1))
  {
    hide Fits;
    hide Gathering;
    hide Overrun;
    hide I.Next;
    hide R.Next;
    if !Audible(m) && (Refused(p) || (left > 0 && Gathering(m, p, 0, 0))) {
      if !Refused(p) {
        AddressInRange(m);
        FirstIsRefused(m, p, d.choice);
      }
    } else {
      var k: nat :| k <= left && Overrun(m.w, p, k);
      OverrunAdvances(m.w, p, k, d);
    }
  }

  lemma FailingIsEarly(m: Path, p: Pair, left: nat)
    requires Failing(m, p, left)
    ensures !p.i.common.phase.TaskPhase? && !p.r.common.phase.TaskPhase?
  {
    hide Gathering;
    hide Overrun;
    if !Refused(p) {
      if !Audible(m) && left > 0 && Gathering(m, p, 0, 0) {
        GatheringIsEarly(m, p, 0, 0);
      } else {
        var k: nat :| k <= left && Overrun(m.w, p, k);
        QueuesAtOverrun(m.w, p, k);
      }
    }
  }

  /** Nothing is on its way to a client that still listens. */
  ghost predicate Settled(p: Pair) {
    (p.toI == [] || p.iError.Some?) && (p.toR == [] || p.rError.Some?)
  }

  lemma FailingEnds(m: Path, p: Pair, left: nat)
    requires Fits(m) && Failing(m, p, left)
    ensures p.iError.Some? ==> p.iError.value == InvalidNonce && !Audible(m)
    ensures p.rError.Some? ==> p.rError.value == InvalidNonce && !Answerable(m)
    ensures Settled(p) ==> (Refused(p) && !Audible(m)) || (Rejected(m.w, p) && !Answerable(m))
    ensures !Settled(p) ==> left > 0 && p.iError.None? && p.rError.None?
    ensures !EndsWell(m, p) && !Stranded(m, p)
  {
    hide EndsWell;
    hide Audible;
    hide Answerable;
    FailingIsEarly(m, p, left);
    if p.rError != Some(NoSharedTaskFound) { EarlyIsNotWell(m, p); }
    hide Fits;
    hide Gathering;
    hide I.Next;
    hide R.Next;
    hide TokenSent;
    hide KeySent;
    hide KeyAnswered;
    if !Audible(m) && (Refused(p) || (left > 0 && Gathering(m, p, 0, 0))) {
      if !Refused(p) {
        FirstIsNext(m, p);
      }
    } else {
      var k: nat :| k <= left && Overrun(m.w, p, k);
      QueuesAtOverrun(m.w, p, k);
    }
  }

  lemma AddressInRange(m: Path)
    requires Fits(m)
    ensures 2 <= m.w.a
  {
  }

  // ---------- Every delivery, every schedule ----------

  lemma StageKeepsServer(m: Path, p: Pair, left: nat, d: Delivery)
    requires Stage(m.w, p, left) && left > 0 && ServerHeardOut(m, p.r.common)
    ensures ServerHeardOut(m, Deliver(m.w, p, d).r.common)
  {
    hide II.Valid;
    hide RI.Valid;
    hide I.Next;
    hide R.Next;
    hide Names;
    hide NoDup;
    hide ResponderAuth;
    if !d.toInitiator && p.toR != [] {
      assert p.toR[0].nonce.source == 1;
      PeerLeavesServer(p.r, m.w.rTape, p.toR[0], d.choice);
    }
  }

  /** A message of the initiator does not touch what the responder knows of the server. */
  lemma PeerLeavesServer(r: R.Responder, tape: Tape, b: ByteBox, choice: Choice)
    requires b.nonce.source == 1
    ensures R.Next(r, tape, Receive(b, choice)).state.common.server == r.common.server
  {
    hide Admit;
    hide NextNonce;
    hide ResponderAuth;
    hide ChoicePasses;
    hide TaskActions;
  }

  /**
   Each delivery finds its queue empty, or is accepted and brings the session one step closer to its end; only the
   iteration order of the listed responders, or a first number that is not fit for a first message, takes it off that
   way.
   */
  lemma SessionAdvances(m: Path, p: Pair, left: nat, d: Delivery)
    requires Fits(m) && Underway(m, p, left) && d.choice.initOk
    ensures var q := Deliver(m.w, p, d);
            || q == p
            || (left > 0 && Underway(m, q, left - 1))
            || (left > 0 && Missed(m, q, left - 1) && !Keeps(m, d.choice))
            || (left > 0 && Failing(m, q, left - 1))
  {
    hide Fits;
    hide Stage;
    hide ServerHeardOut;
    hide Missed;
    hide Failing;
    hide Gathering;
    hide Deliver;
    hide Keeps;
    hide Audible;
    hide CanAnswer;
    if left <= Exchange(m) {
      StageAdvances(m, p, left, d);
    } else {
      var toI: nat, toR: nat :| toI + toR > 0 && left == toI + toR + Exchange(m) && Gathering(m, p, toI, toR);
      GatheringAdvances(m, p, toI, toR, d);
    }
  }

  lemma StageAdvances(m: Path, p: Pair, left: nat, d: Delivery)
    requires left <= Exchange(m) && Audible(m) && CanAnswer(m)
    requires Stage(m.w, p, left) && ServerHeardOut(m, p.r.common) && d.choice.initOk
    ensures Deliver(m.w, p, d) == p || (left > 0 && Underway(m, Deliver(m.w, p, d), left - 1))
  {
    hide Stage;
    hide ServerHeardOut;
    hide Deliver;
    DeliveryAdvances(m.w, p, left, d);
    if left > 0 { StageKeepsServer(m, p, left, d); }
  }

  lemma GatheringAdvances(m: Path, p: Pair, toI: nat, toR: nat, d: Delivery)
    requires Fits(m) && toI + toR > 0 && Gathering(m, p, toI, toR)
    ensures var q, left := Deliver(m.w, p, d), toI + toR + Exchange(m) - 1;
            q == p || Underway(m, q, left) || (Missed(m, q, left) && !Keeps(m, d.choice)) || Failing(m, q, left)
  {
    hide Fits;
    hide Gathering;
    hide Underway;
    hide Failing;
    hide Keeps;
    hide Crowded;
    hide I.Next;
    hide R.Next;
    if d.toInitiator && toI > 0 {
      GatheringToInitiator(m, p, toI, toR, d.choice);
      var q := Deliver(m.w, p, d);
      if toI == 1 && !Keeps(m, d.choice) {
        CrowdedIsMissed(m, q, toR);
        MissedLonger(m, q, toR + Openings(m), toR + Exchange(m));
      } else {
        GatheringIsUnderway(m, q, toI - 1, toR);
      }
    } else if !d.toInitiator && toR > 0 {
      GatheringToResponder(m, p, toI, toR, d.choice);
      GatheringIsUnderway(m, Deliver(m.w, p, d), toI, toR - 1);
    } else {
      NothingToDeliver(m, p, toI, toR);
    }
  }

  lemma CrowdedIsMissed(m: Path, p: Pair, toR: nat)
    requires Crowded(m, p, toR)
    ensures Missed(m, p, toR + Openings(m))
  {
    hide InitiatorMissed;
    hide ResponderAt;
    hide HasStarted;
    hide ToResponder;
    if toR == 0 {
      var boxes, k: nat :| HasStarted(m, p.r, boxes) && k <= |boxes| && p.toI == boxes[k..];
      OpeningIsAddressed(m, p.r, boxes);
    }
  }

  lemma MissedLonger(m: Path, p: Pair, left: nat, more: nat)
    requires Missed(m, p, left) && left <= more
    ensures Missed(m, p, more)
  {
  }

  lemma GatheringIsUnderway(m: Path, p: Pair, toI: nat, toR: nat)
    requires Fits(m) && Gathering(m, p, toI, toR)
    ensures Underway(m, p, toI + toR + Exchange(m)) || Failing(m, p, toI + toR + Exchange(m))
    ensures toI + toR > 0 ==> Underway(m, p, toI + toR + Exchange(m))
  {
    hide Fits;
    hide Gathering;
    hide Stage;
    hide Overrun;
    hide ServerHeardOut;
    hide Audible;
    hide Answerable;
    hide CanAnswer;
    if toI + toR == 0 && Audible(m) { GatheredIsStaged(m, p); }
  }

  /** A client that has heard all of the server while the other has not finds nothing in its queue. */
  lemma NothingToDeliver(m: Path, p: Pair, toI: nat, toR: nat)
    requires Gathering(m, p, toI, toR)
    ensures toI == 0 && toR > 0 ==> p.toI == []
    ensures toR == 0 ==> p.toR == []
  {
  }

  /** The queues are empty exactly at the end. */
  lemma QueuesUnderway(m: Path, p: Pair, left: nat)
    requires Underway(m, p, left)
    ensures p.toI == [] && p.toR == [] <==> left == 0
    ensures p.iError.None? && (left > 0 ==> p.rError.None?)
  {
    hide InitiatorAt;
    hide ResponderAt;
    hide HasStarted;
    hide Waiting;
    hide Base;
    hide ToInitiator;
    hide ToResponder;
    if left <= Exchange(m) {
      QueuesAtStage(m.w, p, left);
      StageErrors(m.w, p, left);
      if left > 0 { NoErrorYet(m.w, p, left); }
    }
  }

  lemma NoErrorYet(w: Setup, p: Pair, left: nat)
    requires Stage(w, p, left) && left > 0
    ensures p.rError.None?
  {
  }

  ghost predicate AllKeep(m: Path, schedule: seq<Delivery>) {
    forall k :: 0 <= k < |schedule| ==> Keeps(m, schedule[k].choice)
  }

  /** The responder is registered, or can still be. */
  ghost predicate OnTrack(m: Path, p: Pair, left: nat) {
    Underway(m, p, left) || Failing(m, p, left)
  }

  lemma GoesOn(m: Path, p: Pair, left: nat, d: Delivery)
    requires Fits(m) && (OnTrack(m, p, left) || Missed(m, p, left)) && d.choice.initOk
    ensures var q := Deliver(m.w, p, d);
            && (q == p || (left > 0 && (OnTrack(m, q, left - 1) || Missed(m, q, left - 1))))
            && (OnTrack(m, p, left) && Keeps(m, d.choice) && q != p ==> OnTrack(m, q, left - 1))
  {
    hide Fits;
    hide Underway;
    hide Missed;
    hide Failing;
    hide Keeps;
    hide Deliver;
    if Underway(m, p, left) { SessionAdvances(m, p, left, d); }
    if Missed(m, p, left) { MissedAdvances(m, p, left, d); }
    if Failing(m, p, left) { FailingAdvances(m, p, left, d); }
  }

  lemma {:induction false} RunAdvances(m: Path, p: Pair, left: nat, schedule: seq<Delivery>)
    requires Fits(m) && (OnTrack(m, p, left) || Missed(m, p, left)) && InitSucceeds(schedule)
    ensures var done := Effective(m.w, p, schedule);
            var q := Run(m.w, p, schedule);
            && done <= left && (OnTrack(m, q, left - done) || Missed(m, q, left - done))
            && (OnTrack(m, p, left) && AllKeep(m, schedule) ==> OnTrack(m, q, left - done))
    decreases |schedule|
  {
    hide Fits;
    hide OnTrack;
    hide Missed;
    hide Keeps;
    hide Deliver;
    if schedule != [] {
      GoesOn(m, p, left, schedule[0]);
      var q := Deliver(m.w, p, schedule[0]);
      RunAdvances(m, q, if q == p then left else left - 1, schedule[1..]);
    }
  }

  /** Both are in the task phase and agree, or both have reported that they share no task. */
  ghost predicate EndsWell(m: Path, p: Pair) {
    if ShareTask(m.w.iTasks, m.w.rTasks) then Finished(m.w, p) else Parted(m.w, p)
  }

  /**
   Progress. Whichever client connects first, with a token or with trusted keys, under every schedule there are at most
   ten deliveries, and once nothing is on its way, both clients are in the task phase and agree, or both have reported
   that they share no task, unless
   - the responder was crowded out by others that were there before the initiator; that takes an order that drops it;
   - the responder's or the initiator's first message is refused; that takes a last start sequence in a draw for it.
   */
  lemma ExchangeEnds(m: Path, schedule: seq<Delivery>)
    requires Fits(m) && InitSucceeds(schedule)
    ensures var q := Run(m.w, Start(m), schedule);
            && Effective(m.w, Start(m), schedule) <= 10
            && (Settled(q) ==> EndsWell(m, q) || Stranded(m, q) || Refused(q) || Rejected(m.w, q))
            && (Stranded(m, q) ==> !AllKeep(m, schedule))
            && (q.iError.Some? ==> q.iError.value == InvalidNonce && !Audible(m))
            && (q.rError.Some? ==> (q.rError.value == NoSharedTaskFound && !ShareTask(m.w.iTasks, m.w.rTasks))
                                   || (q.rError.value == InvalidNonce && !Answerable(m)))
            && (EndsWell(m, q) ==> Audible(m) && CanAnswer(m))
  {
    hide Fits;
    hide Stage;
    hide Underway;
    hide Missed;
    hide Failing;
    hide Keeps;
    hide Deliver;
    hide Finished;
    hide Parted;
    hide Stranded;
    hide Refused;
    hide Rejected;
    hide Audible;
    hide Answerable;
    hide CanAnswer;
    StartGathers(m);
    var left := |ToInitiator(m)| + |ToResponder(m)| + Exchange(m);
    RunAdvances(m, Start(m), left, schedule);
    var q := Run(m.w, Start(m), schedule);
    var rest := left - Effective(m.w, Start(m), schedule);
    if Underway(m, q, rest) { UnderwayEnds(m, q, rest); }
    if Missed(m, q, rest) { MissedEnds(m, q, rest); }
    if Failing(m, q, rest) { FailingEnds(m, q, rest); }
  }

  lemma UnderwayEnds(m: Path, q: Pair, rest: nat)
    requires Underway(m, q, rest)
    ensures q.iError.None?
            && (q.rError.Some? ==> q.rError.value == NoSharedTaskFound && !ShareTask(m.w.iTasks, m.w.rTasks))
    ensures Settled(q) ==> EndsWell(m, q)
    ensures EndsWell(m, q) ==> Audible(m) && CanAnswer(m)
    ensures !Stranded(m, q)
    ensures !Settled(q) ==> rest > 0 && q.rError.None?
  {
    hide Stage;
    hide Gathering;
    hide Finished;
    hide Parted;
    hide ServerHeardOut;
    hide ShareTask;
    hide Audible;
    hide CanAnswer;
    QueuesUnderway(m, q, rest);
    if rest == 0 {
      EndOfStage(m.w, q);
      StageErrors(m.w, q, 0);
      WellIsNotStranded(m, q);
    } else if rest > Exchange(m) {
      var toI: nat, toR: nat :| toI + toR > 0 && rest == toI + toR + Exchange(m) && Gathering(m, q, toI, toR);
      GatheringIsEarly(m, q, toI, toR);
      EarlyIsNotWell(m, q);
    }
  }

  lemma WellIsNotStranded(m: Path, p: Pair)
    ensures EndsWell(m, p) ==> !Stranded(m, p) && Settled(p)
  {
    hide II.Valid;
    hide RI.Valid;
    hide ShareTask;
  }

  lemma EarlyIsNotWell(m: Path, p: Pair)
    requires !p.i.common.phase.TaskPhase? && p.rError != Some(NoSharedTaskFound)
    ensures !EndsWell(m, p)
  {
    hide II.Valid;
    hide RI.Valid;
    hide ShareTask;
  }

  lemma MissedEnds(m: Path, p: Pair, left: nat)
    requires Missed(m, p, left)
    ensures p.iError.None? && p.rError.None? && (Settled(p) ==> Stranded(m, p)) && !EndsWell(m, p)
  {
    hide Missed;
    hide Stranded;
    hide EndsWell;
    MissedHasNoError(m, p, left);
    MissedIsEarly(m, p, left);
    EarlyIsNotWell(m, p);
    if Settled(p) { MissedStrands(m, p, left); }
  }

  lemma MissedHasNoError(m: Path, p: Pair, left: nat)
    requires Missed(m, p, left)
    ensures p.iError.None? && p.rError.None?
  {
    hide InitiatorMissed;
    hide ResponderAt;
    hide HasStarted;
    hide ToResponder;
  }

  /** Until the initiator has sent its auth message neither client is in the task phase. */
  lemma UnderwayIsEarly(m: Path, p: Pair, left: nat)
    requires Underway(m, p, left) && !AuthAnswered(m.w, p) && !Finished(m.w, p)
    ensures !p.i.common.phase.TaskPhase? && !p.r.common.phase.TaskPhase?
  {
    hide AuthAnswered;
    hide Finished;
    hide ServerHeardOut;
    hide Gathering;
    hide Stage;
    if left > Exchange(m) {
      var toI: nat, toR: nat :| toI + toR > 0 && left == toI + toR + Exchange(m) && Gathering(m, p, toI, toR);
      GatheringIsEarly(m, p, toI, toR);
    } else {
      StageIsEarly(m.w, p, left);
    }
  }

  lemma GatheringIsEarly(m: Path, p: Pair, toI: nat, toR: nat)
    requires Gathering(m, p, toI, toR)
    ensures !p.i.common.phase.TaskPhase? && !p.r.common.phase.TaskPhase?
  {
    hide ToInitiator;
    hide ToResponder;
    hide HasStarted;
    hide InitiatorAt;
    hide ResponderAt;
    InitiatorIsEarly(m, p.i, toI);
    if toR == 0 {
      var boxes :| HasStarted(m, p.r, boxes) && p.toI == Rest(ToInitiator(m), toI) + boxes;
      OpeningIsAddressed(m, p.r, boxes);
    } else {
      ResponderIsEarly(m, p.r, toR);
    }
  }

  lemma InitiatorIsEarly(m: Path, i: I.Initiator, toI: nat)
    requires InitiatorAt(m, i, toI)
    ensures !i.common.phase.TaskPhase?
  {
    hide II.Valid;
    hide ToInitiator;
  }

  lemma ResponderIsEarly(m: Path, r: R.Responder, toR: nat)
    requires ResponderAt(m, r, toR) && toR > 0
    ensures !r.common.phase.TaskPhase?
  {
    hide RI.Valid;
    hide ToResponder;
  }

  lemma StageIsEarly(w: Setup, p: Pair, left: nat)
    requires Stage(w, p, left) && !AuthAnswered(w, p) && !Finished(w, p)
    ensures !p.i.common.phase.TaskPhase? && !p.r.common.phase.TaskPhase?
  {
    hide II.Valid;
    hide RI.Valid;
    hide AuthAnswered;
    hide Finished;
    hide ShareTask;
  }

  // ---------- What goes wrong, and that it does ----------

  /** On a crowded path there is a schedule that ends with both clients stranded. */
  lemma CrowdedStrands(m: Path) returns (schedule: seq<Delivery>)
    requires Fits(m) && !Uncrowded(m)
    ensures InitSucceeds(schedule) && Stranded(m, Run(m.w, Start(m), schedule))
  {
    hide Fits;
    hide Stranded;
    hide Gathering;
    hide Crowded;
    hide Keeps;
    hide I.Next;
    hide R.Next;
    hide Start;
    var choice := DroppingOrder(m);
    var d := Delivery(true, choice);
    StartGathering(m);
    GatheringToInitiator(m, Start(m), 2, 3, choice);
    var p := Deliver(m.w, Start(m), d);
    GatheringToInitiator(m, p, 1, 3, choice);
    var q := Deliver(m.w, p, d);
    CrowdedIsMissed(m, q, 3);
    var rest := MissedDrains(m, q, 3 + Openings(m), choice);
    schedule := [d, d] + rest;
    assert schedule[1..][1..] == rest && schedule[1..][0] == d;
  }

  lemma DroppingOrder(m: Path) returns (choice: Choice)
    requires Fits(m) && !Uncrowded(m)
    ensures !Keeps(m, choice) && choice.initOk
  {
    choice := SomeOrderDrops(m);
  }

  lemma {:induction false} MissedDrains(m: Path, p: Pair, left: nat, choice: Choice) returns (schedule: seq<Delivery>)
    requires Fits(m) && Missed(m, p, left) && choice.initOk
    ensures InitSucceeds(schedule) && Stranded(m, Run(m.w, p, schedule))
    decreases left
  {
    hide Fits;
    hide Missed;
    hide Stranded;
    hide I.Next;
    hide R.Next;
    if p.toI == [] && p.toR == [] {
      schedule := [];
      MissedStrands(m, p, left);
    } else {
      MissedHasNoError(m, p, left);
      var d := Delivery(p.toI != [], choice);
      MissedAdvances(m, p, left, d);
      assert Deliver(m.w, p, d) != p;
      var rest := MissedDrains(m, Deliver(m.w, p, d), left - 1, choice);
      schedule := [d] + rest;
      assert schedule[1..] == rest;
    }
  }

  /** From a point where a first message will be refused, some schedule ends with that. */
  lemma {:induction false} FailingDrains(m: Path, p: Pair, left: nat, choice: Choice) returns (schedule: seq<Delivery>)
    requires Fits(m) && Failing(m, p, left) && choice.initOk
    ensures InitSucceeds(schedule)
    ensures var q := Run(m.w, p, schedule);
            && ((Refused(q) && !Audible(m)) || (Rejected(m.w, q) && !Answerable(m)))
            && Settled(q) && !EndsWell(m, q)
    decreases left
  {
    hide Fits;
    hide Failing;
    hide EndsWell;
    hide Audible;
    hide Answerable;
    hide I.Next;
    hide R.Next;
    FailingEnds(m, p, left);
    if Settled(p) {
      schedule := [];
    } else {
      var d := Delivery(p.toI != [], choice);
      FailingAdvances(m, p, left, d);
      assert Deliver(m.w, p, d) != p;
      var rest := FailingDrains(m, Deliver(m.w, p, d), left - 1, choice);
      schedule := [d] + rest;
      assert schedule[1..] == rest;
    }
  }

  /** Under this choice the initiator takes this draw for the responder. */
  ghost predicate Draws(m: Path, choice: Choice, n: nat) {
    if m.initiatorFirst then n == |m.listed| else RegistersAt(m, choice, m.w.a, n)
  }

  ghost predicate HasDraw(m: Path, i: I.Initiator, n: nat) {
    m.w.a in i.responders && i.responders[m.w.a].counter == n
  }

  lemma DrawsKeeps(m: Path, choice: Choice, n: nat)
    requires Draws(m, choice, n)
    ensures Keeps(m, choice)
  {
  }

  /** Every draw the initiator can take for the responder, it takes under some choice. */
  lemma SomeChoiceDraws(m: Path, n: nat) returns (choice: Choice)
    requires Fits(m) && DrawnAt(m, n)
    ensures choice.initOk && Draws(m, choice, n)
  {
    if m.initiatorFirst {
      choice := SomeOrderKeeps(m);
    } else {
      choice := SomeOrderPlaces(m, n);
    }
  }

  lemma LastMessageDraws(m: Path, i: I.Initiator, choice: Choice, n: nat)
    requires Fits(m) && InitiatorAt(m, i, 1) && Draws(m, choice, n)
    ensures HasDraw(m, I.Next(i, m.w.iTape, Receive(Rest(ToInitiator(m), 1)[0], choice)).state, n)
  {
    hide I.Next;
    hide Quietly;
    hide InitiatorGreeted;
    hide InitiatorWaits;
    hide InitiatorOnPath;
    hide FreshDraws;
    hide HelloBox;
    hide ServerBox;
    hide AuthToInitiator;
    if m.initiatorFirst {
      NewsReachesInitiator(m, i, choice);
    } else {
      AuthReachesInitiator(m, i, choice);
      var responders := I.Next(i, m.w.iTape, Receive(ToInitiator(m)[1], choice)).state.responders;
      assert Registers(m, choice, m.w.a);
      assert RegistersAt(m, choice, m.w.a, responders[m.w.a].counter);
      ListedLength(m, choice);
    }
  }

  /** Everything the server has to say is heard, under this choice and with this draw. */
  lemma {:induction false} GatherAll(m: Path, p: Pair, toI: nat, toR: nat, choice: Choice, n: nat)
    returns (schedule: seq<Delivery>)
    requires Fits(m) && Gathering(m, p, toI, toR) && choice.initOk && Draws(m, choice, n)
    requires toI == 0 ==> HasDraw(m, p.i, n)
    ensures InitSucceeds(schedule)
    ensures var q := Run(m.w, p, schedule);
            Gathering(m, q, 0, 0) && HasDraw(m, q.i, n)
    decreases toI + toR
  {
    hide Fits;
    hide Gathering;
    hide Draws;
    hide HasDraw;
    hide Keeps;
    hide Crowded;
    hide I.Next;
    hide R.Next;
    if toI + toR == 0 {
      schedule := [];
    } else {
      var d := Delivery(toI > 0, choice);
      var q := Deliver(m.w, p, d);
      if toI > 0 {
        DrawsKeeps(m, choice, n);
        GatheringToInitiator(m, p, toI, toR, choice);
        if toI == 1 { LastDeliveryDraws(m, p, toR, choice, n); }
      } else {
        GatheringToResponder(m, p, toI, toR, choice);
      }
      var rest := GatherAll(m, q, if toI > 0 then toI - 1 else 0, if toI > 0 then toR else toR - 1, choice, n);
      schedule := [d] + rest;
      assert schedule[1..] == rest;
    }
  }

  lemma LastDeliveryDraws(m: Path, p: Pair, toR: nat, choice: Choice, n: nat)
    requires Fits(m) && Gathering(m, p, 1, toR) && Draws(m, choice, n)
    ensures HasDraw(m, Deliver(m.w, p, Delivery(true, choice)).i, n)
  {
    hide Fits;
    hide I.Next;
    hide InitiatorAt;
    hide ResponderAt;
    hide HasStarted;
    hide Draws;
    hide HasDraw;
    hide ToInitiator;
    hide ToResponder;
    assert |Rest(ToInitiator(m), 1)| == 1;
    LastMessageDraws(m, p.i, choice, n);
  }

  lemma SpareDraw(m: Path, p: Pair, n: nat)
    requires Fits(m) && Gathering(m, p, 0, 0) && HasDraw(m, p.i, n)
    ensures WillOpen(m.w, p) <==> m.w.iTape(n).start < 0xffff_ffff
  {
    hide II.Valid;
    hide HasStarted;
    hide ToResponder;
  }

  /** The first message of the initiator is refused whenever the draw it takes for the responder starts last. */
  lemma LastStartIsRejected(m: Path, n: nat) returns (schedule: seq<Delivery>)
    requires Fits(m) && Audible(m) && DrawnAt(m, n) && m.w.iTape(n).start == 0xffff_ffff
    ensures InitSucceeds(schedule)
    ensures var q := Run(m.w, Start(m), schedule);
            Settled(q) && !EndsWell(m, q) && Rejected(m.w, q)
  {
    hide Fits;
    hide DrawnAt;
    hide Draws;
    hide HasDraw;
    hide Gathering;
    hide Stage;
    hide Overrun;
    hide EndsWell;
    hide WillOpen;
    hide Audible;
    hide Answerable;
    hide Refused;
    hide Rejected;
    hide Deliver;
    hide Start;
    var choice := SomeChoiceDraws(m, n);
    StartGathering(m);
    var first := GatherAll(m, Start(m), |ToInitiator(m)|, |ToResponder(m)|, choice, n);
    var p := Run(m.w, Start(m), first);
    SpareDraw(m, p, n);
    GatheredIsStaged(m, p);
    var rest := FailingDrains(m, p, 5, choice);
    RunsJoin(m.w, Start(m), first, rest);
    schedule := first + rest;
  }

  lemma {:induction false} RunsJoin(w: Setup, p: Pair, first: seq<Delivery>, second: seq<Delivery>)
    ensures Run(w, p, first + second) == Run(w, Run(w, p, first), second)
    decreases |first|
  {
    hide Deliver;
    if first == [] {
      assert first + second == second;
    } else {
      assert (first + second)[1..] == first[1..] + second;
      RunsJoin(w, Deliver(w, p, first[0]), first[1..], second);
    }
  }

  /** The first message of the responder is refused whenever the draw it opens with starts last. */
  lemma LastStartIsRefused(m: Path) returns (schedule: seq<Delivery>)
    requires Fits(m) && !Audible(m)
    ensures InitSucceeds(schedule)
    ensures var q := Run(m.w, Start(m), schedule);
            Settled(q) && !EndsWell(m, q) && Refused(q)
  {
    hide Fits;
    hide Draws;
    hide HasDraw;
    hide Gathering;
    hide Overrun;
    hide EndsWell;
    hide Audible;
    hide Answerable;
    hide Deliver;
    hide Start;
    hide DrawnAt;
    var n := SomeDraw(m);
    var choice := SomeChoiceDraws(m, n);
    StartGathering(m);
    var first := GatherAll(m, Start(m), |ToInitiator(m)|, |ToResponder(m)|, choice, n);
    var p := Run(m.w, Start(m), first);
    var d := Delivery(true, choice);
    AddressInRange(m);
    FirstIsRefused(m, p, choice);
    RefusedEnds(m, Deliver(m.w, p, d));
    RunsJoin(m.w, Start(m), first, [d]);
    assert [d][1..] == [];
    schedule := first + [d];
  }

  lemma SomeDraw(m: Path) returns (n: nat)
    requires Fits(m)
    ensures DrawnAt(m, n)
  {
    n := if m.initiatorFirst then |m.listed| else |m.listed| - 1;
  }

  lemma RefusedEnds(m: Path, p: Pair)
    requires Refused(p)
    ensures Settled(p) && !EndsWell(m, p)
  {
    EarlyIsNotWell(m, p);
  }

  /** Every schedule ends well if and only if the path is not crowded and no draw either can open with starts last. */
  lemma BoundIsExact(m: Path)
    requires Fits(m)
    ensures (forall schedule :: InitSucceeds(schedule) && Settled(Run(m.w, Start(m), schedule)) ==>
               EndsWell(m, Run(m.w, Start(m), schedule))) <==> Uncrowded(m) && Audible(m) && Answerable(m)
  {
    hide Fits;
    hide Keeps;
    hide Deliver;
    hide Start;
    hide DrawnAt;
    hide EndsWell;
    hide Audible;
    hide Stranded;
    hide CanAnswer;
    if !Uncrowded(m) {
      var schedule := CrowdedStrands(m);
      StrandedIsNotWell(m, Run(m.w, Start(m), schedule));
    } else if !Audible(m) {
      var schedule := LastStartIsRefused(m);
    } else if !Answerable(m) {
      var n: nat :| DrawnAt(m, n) && m.w.iTape(n).start >= 0xffff_ffff;
      var schedule := LastStartIsRejected(m, n);
    } else {
      forall schedule: seq<Delivery> | InitSucceeds(schedule) && Settled(Run(m.w, Start(m), schedule))
        ensures EndsWell(m, Run(m.w, Start(m), schedule))
      {
        forall k | 0 <= k < |schedule| ensures Keeps(m, schedule[k].choice) { RoomKeeps(m, schedule[k].choice); }
        ExchangeEnds(m, schedule);
      }
    }
  }

  lemma RoomKeeps(m: Path, choice: Choice)
    requires Fits(m) && Uncrowded(m)
    ensures Keeps(m, choice)
  {
    UncrowdedKeeps(m, choice);
  }

  lemma StrandedIsNotWell(m: Path, p: Pair)
    requires Stranded(m, p)
    ensures Settled(p) && !EndsWell(m, p)
  {
    EarlyIsNotWell(m, p);
  }

  // ---------- Nothing gets stuck otherwise ----------

  /** From every point of the exchange some schedule leads to every later one. */
  lemma {:induction false} StageReaches(m: Path, p: Pair, left: nat, target: nat, choice: Choice)
    returns (schedule: seq<Delivery>)
    requires Audible(m) && CanAnswer(m) && left <= Exchange(m) && Stage(m.w, p, left) && ServerHeardOut(m, p.r.common)
    requires target <= left && choice.initOk
    ensures InitSucceeds(schedule) && Underway(m, Run(m.w, p, schedule), target)
    decreases left
  {
    hide Stage;
    hide Gathering;
    hide ServerHeardOut;
    hide Audible;
    hide CanAnswer;
    hide I.Next;
    hide R.Next;
    if left == target {
      schedule := [];
    } else {
      assert Underway(m, p, left);
      QueuesUnderway(m, p, left);
      var d := Delivery(p.toI != [], choice);
      StageAdvances(m, p, left, d);
      assert Deliver(m.w, p, d) != p;
      var rest := StageReaches(m, Deliver(m.w, p, d), left - 1, target, choice);
      schedule := [d] + rest;
      assert schedule[1..] == rest;
    }
  }

  /** From every point of a session some schedule leads to every later one, unless a first message will be refused. */
  lemma {:induction false} CanReach(m: Path, p: Pair, left: nat, target: nat, choice: Choice)
    returns (schedule: seq<Delivery>)
    requires Fits(m) && Underway(m, p, left) && target <= left && choice.initOk && Keeps(m, choice)
    requires Audible(m) && Answerable(m)
    ensures InitSucceeds(schedule) && Underway(m, Run(m.w, p, schedule), target)
    decreases left
  {
    hide Fits;
    hide Underway;
    hide Missed;
    hide Keeps;
    hide Gathering;
    hide Overrun;
    hide Audible;
    hide Answerable;
    hide I.Next;
    hide R.Next;
    if left == target {
      schedule := [];
    } else {
      QueuesUnderway(m, p, left);
      var d := Delivery(p.toI != [], choice);
      SessionAdvances(m, p, left, d);
      assert Deliver(m.w, p, d) != p;
      var rest := CanReach(m, Deliver(m.w, p, d), left - 1, target, choice);
      schedule := [d] + rest;
      assert schedule[1..] == rest;
    }
  }

  /** From creation to every point of the exchange, if there is a draw for the responder that can be opened with. */
  lemma CanExchange(m: Path, target: nat) returns (schedule: seq<Delivery>)
    requires Fits(m) && Audible(m) && CanAnswer(m) && target <= Exchange(m)
    ensures InitSucceeds(schedule) && Underway(m, Run(m.w, Start(m), schedule), target)
  {
    hide Fits;
    hide Stage;
    hide Overrun;
    hide Gathering;
    hide Underway;
    hide WillOpen;
    hide DrawnAt;
    hide Draws;
    hide HasDraw;
    hide Audible;
    hide Deliver;
    hide Start;
    var n: nat :| DrawnAt(m, n) && m.w.iTape(n).start < 0xffff_ffff;
    var choice := SomeChoiceDraws(m, n);
    StartGathering(m);
    var first := GatherAll(m, Start(m), |ToInitiator(m)|, |ToResponder(m)|, choice, n);
    var p := Run(m.w, Start(m), first);
    SpareDraw(m, p, n);
    GatheredIsStaged(m, p);
    var rest := StageReaches(m, p, Exchange(m), target, choice);
    RunsJoin(m.w, Start(m), first, rest);
    schedule := first + rest;
  }

  /** In particular, crowded or not, from creation to a good end. */
  lemma CanComplete(m: Path) returns (schedule: seq<Delivery>)
    requires Fits(m) && Audible(m) && CanAnswer(m)
    ensures InitSucceeds(schedule)
    ensures var q := Run(m.w, Start(m), schedule);
            EndsWell(m, q) && ServerHeardOut(m, q.r.common)
  {
    hide Fits;
    hide Audible;
    hide CanAnswer;
    hide Stage;
    hide Deliver;
    hide Finished;
    hide Parted;
    hide Gathering;
    hide ServerHeardOut;
    schedule := CanExchange(m, 0);
    EndOfStage(m.w, Run(m.w, Start(m), schedule));
  }

  /** A good end is within reach if and only if each client has a draw that it can open with. */
  lemma CompletionIsExact(m: Path)
    requires Fits(m)
    ensures (exists schedule :: InitSucceeds(schedule) && EndsWell(m, Run(m.w, Start(m), schedule)))
            <==> Audible(m) && CanAnswer(m)
  {
    hide Fits;
    hide Audible;
    hide CanAnswer;
    hide EndsWell;
    hide Deliver;
    hide Start;
    hide ServerHeardOut;
    if Audible(m) && CanAnswer(m) {
      var schedule := CanComplete(m);
    } else {
      forall schedule | InitSucceeds(schedule) ensures !EndsWell(m, Run(m.w, Start(m), schedule)) {
        ExchangeEnds(m, schedule);
      }
    }
  }
}
