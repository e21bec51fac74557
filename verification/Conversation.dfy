/**
 The tasks of two clients talk over the in-order relay, as soon as their own client is in the task phase. Whatever goes
 out is accepted and read on the other side, in order, once each.
 */
module Conversation {
  import opened Basics
  import opened CombinedSequence
  import opened Messages
  import opened Boxes
  import opened Negotiation
  import opened Contexts
  import opened Signaling
  import opened TaskTraffic
  import A = Agreement
  import I = InitiatorProtocol
  import II = InitiatorInvariants
  import M = Meeting
  import P = Progress
  import R = ResponderProtocol
  import RI = ResponderInvariants
  import Session

  /** Two clients and what is on its way, what each task has said so far and what became of what it heard. */
  datatype Talk = Talk(p: P.Pair, iSaid: seq<Value>, rSaid: seq<Value>, iHeard: seq<Outcome>, rHeard: seq<Outcome>)

  /** A task sends, or the message at the head of a queue arrives. */
  datatype Move = InitiatorSays(input: Input) | ResponderSays(input: Input) | Arrives(d: P.Delivery)

  /** The value the bytes of an outgoing message read as. */
  function Said(input: Input): Value {
    match input
    case SendTask(v, _) => v
    case SendClose(code) => MessageValue(Close(code.AsNumber()))
    case Receive(_, _) => Nil
  }

  /** What a client hears while it is in the task phase is recorded. */
  function Take(w: P.Setup, t: Talk, move: Move): Talk {
    match move
    case InitiatorSays(input) =>
      var h := I.Next(t.p.i, w.iTape, input);
      if input.Receive? || t.p.iError.Some? || h.out.Err? then t
      else t.(p := t.p.(i := h.state, toR := t.p.toR + P.BoxesTo(h.out.actions, w.a)), iSaid := t.iSaid + [Said(input)])
    case ResponderSays(input) =>
      var h := R.Next(t.p.r, w.rTape, input);
      if input.Receive? || t.p.rError.Some? || h.out.Err? then t
      else t.(p := t.p.(r := h.state, toI := t.p.toI + P.BoxesTo(h.out.actions, 1)), rSaid := t.rSaid + [Said(input)])
    case Arrives(d) =>
      if d.toInitiator && t.p.toI != [] && t.p.iError.None? && t.p.i.common.phase.TaskPhase? then
        t.(p := P.Deliver(w, t.p, d), iHeard := t.iHeard + [I.Next(t.p.i, w.iTape, Receive(t.p.toI[0], d.choice)).out])
      else if !d.toInitiator && t.p.toR != [] && t.p.rError.None? && t.p.r.common.phase.TaskPhase? then
        t.(p := P.Deliver(w, t.p, d), rHeard := t.rHeard + [R.Next(t.p.r, w.rTape, Receive(t.p.toR[0], d.choice)).out])
      else t.(p := P.Deliver(w, t.p, d))
  }

  function Run(w: P.Setup, t: Talk, moves: seq<Move>): Talk
    decreases |moves|
  {
    if moves == [] then t else Run(w, Take(w, t, moves[0]), moves[1..])
  }

  predicate InitSucceeds(moves: seq<Move>) {
    forall k :: 0 <= k < |moves| && moves[k].Arrives? ==> moves[k].d.choice.initOk
  }

  // ---------- One direction ----------

  /** The boxes in the queue carry the values said and not yet heard, sealed and numbered without a gap. */
  ghost predicate Channel(queue: seq<ByteBox>, sender: Link, receiver: Link, from: Address, to: Address,
                          ours: KeyPair, theirs: PublicKey, said: seq<Value>, heard: nat)
  {
    && |said| == heard + |queue|
    && receiver.theirCookie == Some(sender.ourCookie) && receiver.theirCsn.Some?
    && sender.ourCsn.Number() == receiver.theirCsn.value.Number() + |queue|
    && forall k :: 0 <= k < |queue| ==>
         && queue[k] == Seal(queue[k].bytes.plain, queue[k].nonce, ours, theirs)
         && queue[k].nonce == Nonce(sender.ourCookie, from, to, queue[k].nonce.csn)
         && queue[k].nonce.csn.Number() == receiver.theirCsn.value.Number() + 1 + k
         && queue[k].bytes.plain.value == Some(said[heard + k])
  }

  lemma ChannelGrows(queue: seq<ByteBox>, sender: Link, receiver: Link, from: Address, to: Address, ours: KeyPair,
                     theirs: PublicKey, said: seq<Value>, heard: nat, csn: Csn, b: ByteBox, v: Value)
    requires Channel(queue, sender, receiver, from, to, ours, theirs, said, heard)
    requires csn.Number() == sender.ourCsn.Number() + 1
    requires b == Seal(b.bytes.plain, Nonce(sender.ourCookie, from, to, csn), ours, theirs)
    requires b.bytes.plain.value == Some(v)
    ensures Channel(queue + [b], sender.(ourCsn := csn), receiver, from, to, ours, theirs, said + [v], heard)
  {
  }

  lemma ChannelShrinks(queue: seq<ByteBox>, sender: Link, receiver: Link, from: Address, to: Address, ours: KeyPair,
                       theirs: PublicKey, said: seq<Value>, heard: nat)
    requires Channel(queue, sender, receiver, from, to, ours, theirs, said, heard) && queue != []
    ensures P.Continues(receiver, queue[0].nonce)
    ensures Channel(queue[1..], sender, P.Heard(receiver, queue[0].nonce), from, to, ours, theirs, said, heard + 1)
  {
    var rest := queue[1..];
    assert forall k :: 0 <= k < |rest| ==> rest[k] == queue[k + 1];
  }

  // ---------- Both directions ----------

  ghost predicate HeardAsSaid(said: seq<Value>, heard: seq<Outcome>, types: Option<seq<string>>) {
    |heard| <= |said| && forall k :: 0 <= k < |heard| ==> heard[k] == TaskActions(said[k], types)
  }

  ghost predicate Talking(w: P.Setup, t: Talk) {
    && t.p.i.common.phase.TaskPhase? && t.p.r.common.phase.TaskPhase?
    && t.p.i.common.identity.IsInitiator? && A.Agree(t.p.i, t.p.r)
    && t.p.i.responder.value.address == w.a && 2 <= w.a
    && var c := t.p.i.responder.value;
    && Channel(t.p.toR, c.link, t.p.r.initiator.link, 1, w.a, c.keypair, t.p.r.initiator.keypair.Public(), t.iSaid,
               |t.rHeard|)
    && Channel(t.p.toI, t.p.r.initiator.link, c.link, w.a, 1, t.p.r.initiator.keypair, c.keypair.Public(), t.rSaid,
               |t.iHeard|)
    && HeardAsSaid(t.iSaid, t.rHeard, t.p.r.common.taskTypes)
    && HeardAsSaid(t.rSaid, t.iHeard, t.p.i.common.taskTypes)
  }

  /** What the initiator's task sends, if it goes out, goes out sealed under the session keys with the next number. */
  lemma InitiatorSends(i: I.Initiator, plain: Plain)
    requires I.SendPeer(i, plain).out.Ok? && i.common.identity.IsInitiator?
    ensures i.responder.Some? && i.responder.value.sessionKey.Some?
    ensures var c := i.responder.value;
            var h := I.SendPeer(i, plain);
            var csn := P.After(c.link);
            var b := Seal(plain, Nonce(c.link.ourCookie, 1, c.address, csn), c.keypair, c.sessionKey.value);
            && csn.Number() == c.link.ourCsn.Number() + 1
            && h == Step(i.(responder := Some(c.(link := c.link.(ourCsn := csn)))), Ok([Reply(b)]))
  {
  }

  lemma ResponderSends(r: R.Responder, plain: Plain)
    requires R.SendPeer(r, plain).out.Ok? && r.common.identity.IsResponder?
    ensures r.initiator.sessionKey.Some?
    ensures var c := r.initiator;
            var h := R.SendPeer(r, plain);
            var csn := P.After(c.link);
            var b := Seal(plain, Nonce(c.link.ourCookie, r.common.identity.address, 1, csn), c.keypair,
                          c.sessionKey.value);
            && csn.Number() == c.link.ourCsn.Number() + 1
            && h == Step(r.(initiator := c.(link := c.link.(ourCsn := csn))), Ok([Reply(b)]))
  {
  }

  function PlainOf(input: Input): Plain {
    match input
    case SendTask(v, reading) => EncodeValue(v, reading)
    case SendClose(code) => Encode(Close(code.AsNumber()))
    case Receive(_, _) => Plain(None, None)
  }

  lemma InitiatorSaysIt(w: P.Setup, t: Talk, input: Input)
    requires Talking(w, t)
    ensures Talking(w, Take(w, t, InitiatorSays(input)))
  {
    hide TaskActions;
    hide Channel;
    hide I.SendPeer;
    hide P.BoxesTo;
    hide P.After;
    var u := Take(w, t, InitiatorSays(input));
    if u != t {
      var c := t.p.i.responder.value;
      InitiatorSends(t.p.i, PlainOf(input));
      var h := I.Next(t.p.i, w.iTape, input);
      P.OneBox(h.out.actions[0], w.a);
      ChannelGrows(t.p.toR, c.link, t.p.r.initiator.link, 1, w.a, c.keypair, t.p.r.initiator.keypair.Public(), t.iSaid,
                   |t.rHeard|,
                   P.After(c.link), h.out.actions[0].box, Said(input));
      ReceiverUnmoved(t.p.toI, t.p.r.initiator.link, c.link, u.p.i.responder.value.link, w.a, 1,
                      t.p.r.initiator.keypair,
                      c.keypair.Public(), t.rSaid, |t.iHeard|);
    }
  }

  /** A channel does not notice that its receiver sends on the other one. */
  lemma ReceiverUnmoved(queue: seq<ByteBox>, sender: Link, receiver: Link, moved: Link, from: Address, to: Address,
                        ours: KeyPair, theirs: PublicKey, said: seq<Value>, heard: nat)
    requires Channel(queue, sender, receiver, from, to, ours, theirs, said, heard)
    requires moved == receiver.(ourCsn := moved.ourCsn)
    ensures Channel(queue, sender, moved, from, to, ours, theirs, said, heard)
  {
  }

  /** Nor that its sender hears something on the other one. */
  lemma SenderUnmoved(queue: seq<ByteBox>, sender: Link, moved: Link, receiver: Link, from: Address, to: Address,
                      ours: KeyPair, theirs: PublicKey, said: seq<Value>, heard: nat)
    requires Channel(queue, sender, receiver, from, to, ours, theirs, said, heard)
    requires moved == sender.(theirCsn := moved.theirCsn, theirCookie := moved.theirCookie)
    ensures Channel(queue, moved, receiver, from, to, ours, theirs, said, heard)
  {
  }

  lemma ResponderSaysIt(w: P.Setup, t: Talk, input: Input)
    requires Talking(w, t)
    ensures Talking(w, Take(w, t, ResponderSays(input)))
  {
    hide TaskActions;
    hide Channel;
    hide R.SendPeer;
    hide P.BoxesTo;
    hide P.After;
    var u := Take(w, t, ResponderSays(input));
    if u != t {
      var c := t.p.i.responder.value;
      ResponderSends(t.p.r, PlainOf(input));
      var h := R.Next(t.p.r, w.rTape, input);
      P.OneBox(h.out.actions[0], 1);
      ChannelGrows(t.p.toI, t.p.r.initiator.link, c.link, w.a, 1, t.p.r.initiator.keypair, c.keypair.Public(), t.rSaid,
                   |t.iHeard|,
                   P.After(t.p.r.initiator.link), h.out.actions[0].box, Said(input));
      ReceiverUnmoved(t.p.toR, c.link, t.p.r.initiator.link, u.p.r.initiator.link, 1, w.a, c.keypair,
                      t.p.r.initiator.keypair.Public(), t.iSaid, |t.rHeard|);
    }
  }

  /** In the task phase a box that continues the link and opens under the session keys is read as a task message. */
  lemma ResponderReadsIt(r: R.Responder, tape: Tape, b: ByteBox, choice: Choice)
    requires r.common.phase.TaskPhase? && r.common.identity.IsResponder? && r.initiator.sessionKey.Some?
    requires b.nonce.source == 1 && b.nonce.destination == r.common.identity.address
    requires P.Continues(r.initiator.link, b.nonce)
    requires SealedWith(b, r.initiator.keypair.id, r.initiator.sessionKey.value.id) && b.bytes.plain.value.Some?
    ensures R.Next(r, tape, Receive(b, choice))
         == Step(r.(initiator := r.initiator.(link := P.Heard(r.initiator.link, b.nonce))),
                 TaskActions(b.bytes.plain.value.value, r.common.taskTypes))
  {
    hide TaskActions;
    hide Admit;
    P.AdmitsExactly(r.initiator.link, b.nonce);
  }

  lemma InitiatorReadsIt(i: I.Initiator, tape: Tape, b: ByteBox, choice: Choice)
    requires i.common.phase.TaskPhase? && i.common.identity.IsInitiator?
    requires i.responder.Some? && i.responder.value.sessionKey.Some?
    requires b.nonce.source == i.responder.value.address && 2 <= b.nonce.source && b.nonce.destination == 1
    requires P.Continues(i.responder.value.link, b.nonce)
    requires SealedWith(b, i.responder.value.keypair.id, i.responder.value.sessionKey.value.id)
    requires b.bytes.plain.value.Some?
    ensures I.Next(i, tape, Receive(b, choice))
         == Step(i.(responder := Some(i.responder.value.(link := P.Heard(i.responder.value.link, b.nonce)))),
                 TaskActions(b.bytes.plain.value.value, i.common.taskTypes))
  {
    hide TaskActions;
    hide Admit;
    P.AdmitsExactly(i.responder.value.link, b.nonce);
  }

  /** The head of a channel is what was said next. */
  lemma HeadOfChannel(queue: seq<ByteBox>, sender: Link, receiver: Link, from: Address, to: Address, ours: KeyPair,
                      theirs: PublicKey, said: seq<Value>, heard: nat)
    requires Channel(queue, sender, receiver, from, to, ours, theirs, said, heard) && queue != []
    ensures heard < |said| && queue[0].bytes.plain.value == Some(said[heard])
    ensures SealedWith(queue[0], theirs.id, ours.id)
    ensures queue[0].nonce.source == from && queue[0].nonce.destination == to
  {
  }

  /** What the task of a client is told goes nowhere else. */
  lemma NothingIsSent(v: Value, types: Option<seq<string>>, to: Address)
    ensures TaskActions(v, types).Ok? ==> P.BoxesTo(TaskActions(v, types).actions, to) == []
  {
    if TaskActions(v, types).Ok? { P.NoBoxes(TaskActions(v, types).actions, to); }
  }

  lemma ArrivesAtResponder(w: P.Setup, t: Talk, choice: Choice)
    requires Talking(w, t)
    ensures Talking(w, Take(w, t, Arrives(P.Delivery(false, choice))))
  {
    hide TaskActions;
    hide Channel;
    hide R.Next;
    hide P.BoxesTo;
    var u := Take(w, t, Arrives(P.Delivery(false, choice)));
    if t.p.toR != [] && t.p.rError.None? {
      var c := t.p.i.responder.value;
      HeadOfChannel(t.p.toR, c.link, t.p.r.initiator.link, 1, w.a, c.keypair, t.p.r.initiator.keypair.Public(), t.iSaid,
                    |t.rHeard|);
      ChannelShrinks(t.p.toR, c.link, t.p.r.initiator.link, 1, w.a, c.keypair, t.p.r.initiator.keypair.Public(),
                     t.iSaid, |t.rHeard|);
      ResponderReadsIt(t.p.r, w.rTape, t.p.toR[0], choice);
      NothingIsSent(t.iSaid[|t.rHeard|], t.p.r.common.taskTypes, 1);
      assert t.p.toI + [] == t.p.toI;
      SenderUnmoved(t.p.toI, t.p.r.initiator.link, u.p.r.initiator.link, c.link, w.a, 1, t.p.r.initiator.keypair,
                    c.keypair.Public(), t.rSaid, |t.iHeard|);
    }
  }

  lemma ArrivesAtInitiator(w: P.Setup, t: Talk, choice: Choice)
    requires Talking(w, t)
    ensures Talking(w, Take(w, t, Arrives(P.Delivery(true, choice))))
  {
    hide TaskActions;
    hide Channel;
    hide I.Next;
    hide P.BoxesTo;
    var u := Take(w, t, Arrives(P.Delivery(true, choice)));
    if t.p.toI != [] && t.p.iError.None? {
      var c := t.p.i.responder.value;
      HeadOfChannel(t.p.toI, t.p.r.initiator.link, c.link, w.a, 1, t.p.r.initiator.keypair, c.keypair.Public(), t.rSaid,
                    |t.iHeard|);
      ChannelShrinks(t.p.toI, t.p.r.initiator.link, c.link, w.a, 1, t.p.r.initiator.keypair, c.keypair.Public(),
                     t.rSaid, |t.iHeard|);
      InitiatorReadsIt(t.p.i, w.iTape, t.p.toI[0], choice);
      NothingIsSent(t.rSaid[|t.iHeard|], t.p.i.common.taskTypes, w.a);
      assert t.p.toR + [] == t.p.toR;
      SenderUnmoved(t.p.toR, c.link, u.p.i.responder.value.link, t.p.r.initiator.link, 1, w.a, c.keypair,
                    t.p.r.initiator.keypair.Public(), t.iSaid, |t.rHeard|);
    }
  }

  lemma TalkGoesOn(w: P.Setup, t: Talk, move: Move)
    requires Talking(w, t)
    ensures Talking(w, Take(w, t, move))
  {
    hide Talking;
    hide Take;
    match move {
      case InitiatorSays(input) => InitiatorSaysIt(w, t, input);
      case ResponderSays(input) => ResponderSaysIt(w, t, input);
      case Arrives(d) =>
        if d.toInitiator { ArrivesAtInitiator(w, t, d.choice); } else { ArrivesAtResponder(w, t, d.choice); }
    }
  }

  // ---------- While the initiator's auth message is on its way ----------

  function Begin(p: P.Pair): Talk {
    Talk(p, [], [], [], [])
  }

  lemma FinishedTalks(w: P.Setup, p: P.Pair)
    requires P.Finished(w, p)
    ensures Talking(w, Begin(p))
  {
    hide II.AuthValid;
    hide II.MapValid;
  }

  /** The initiator is done and its task may have sent already; all that queues up behind its auth message. */
  ghost predicate Joining(w: P.Setup, t: Talk, was: P.Pair) {
    && P.AuthAnswered(w, was)
    && t.p.i.responder.Some? && t.p.r == was.r && t.p.toI == [] && t.p.toR != [] && t.p.toR[0] == was.toR[0]
    && t.p.iError.None? && t.p.rError.None? && t.rSaid == [] && t.iHeard == [] && t.rHeard == []
    && var c, d := t.p.i.responder.value, was.i.responder.value;
    && t.p.i == was.i.(responder := Some(d.(link := d.link.(ourCsn := c.link.ourCsn))))
    && Channel(t.p.toR[1..], c.link, P.Heard(was.r.initiator.link, was.toR[0].nonce), 1, w.a, c.keypair,
               was.r.initiator.keypair.Public(), t.iSaid, 0)
  }

  lemma JoiningStarts(w: P.Setup, p: P.Pair)
    requires P.AuthAnswered(w, p)
    ensures Joining(w, Begin(p), p)
  {
    hide II.Valid;
    hide RI.Valid;
  }

  lemma JoiningSays(w: P.Setup, t: Talk, was: P.Pair, input: Input)
    requires Joining(w, t, was)
    ensures Joining(w, Take(w, t, InitiatorSays(input)), was)
  {
    hide II.Valid;
    hide Channel;
    hide I.SendPeer;
    hide P.BoxesTo;
    hide P.After;
    var u := Take(w, t, InitiatorSays(input));
    if u != t {
      var c := t.p.i.responder.value;
      InitiatorSends(t.p.i, PlainOf(input));
      var h := I.Next(t.p.i, w.iTape, input);
      P.OneBox(h.out.actions[0], w.a);
      assert u.p.toR[1..] == t.p.toR[1..] + [h.out.actions[0].box];
      ChannelGrows(t.p.toR[1..], c.link, P.Heard(was.r.initiator.link, was.toR[0].nonce), 1, w.a, c.keypair,
                   was.r.initiator.keypair.Public(), t.iSaid, 0, P.After(c.link), h.out.actions[0].box, Said(input));
    }
  }

  /** The auth message arrives, and both talk. */
  lemma JoiningEnds(w: P.Setup, t: Talk, was: P.Pair, choice: Choice)
    requires Joining(w, t, was) && choice.initOk
    ensures Talking(w, Take(w, t, Arrives(P.Delivery(false, choice))))
  {
    hide II.Valid;
    hide RI.Valid;
    hide R.Next;
    hide P.BoxesTo;
    hide ShareTask;
    hide TaskActions;
    P.AuthReturns(w, was, choice);
    var u := Take(w, t, Arrives(P.Delivery(false, choice)));
    var end := P.Deliver(w, was, P.Delivery(false, choice));
    assert u.p.r == end.r;
  }

  // ---------- From creation ----------

  /** Still shaking hands, crowded out or refused: nothing can be said yet. */
  ghost predicate Early(m: M.Path, t: Talk) {
    && t == Begin(t.p)
    && !t.p.i.common.phase.TaskPhase? && !t.p.r.common.phase.TaskPhase?
    && exists left: nat :: Session.OnTrack(m, t.p, left) || Session.Missed(m, t.p, left)
  }

  ghost predicate InSession(m: M.Path, t: Talk) {
    || Early(m, t)
    || (exists was :: Joining(m.w, t, was))
    || Talking(m.w, t)
  }

  lemma PointOfSession(m: M.Path, p: P.Pair, left: nat)
    requires Session.OnTrack(m, p, left) || Session.Missed(m, p, left)
    ensures InSession(m, Begin(p))
  {
    hide Talking;
    hide Joining;
    hide P.AuthAnswered;
    hide P.Finished;
    hide Session.Underway;
    hide Session.Missed;
    hide Session.Failing;
    if Session.Missed(m, p, left) {
      Session.MissedIsEarly(m, p, left);
    } else if Session.Failing(m, p, left) {
      Session.FailingIsEarly(m, p, left);
    } else if P.AuthAnswered(m.w, p) {
      JoiningStarts(m.w, p);
    } else if P.Finished(m.w, p) {
      FinishedTalks(m.w, p);
    } else {
      Session.UnderwayIsEarly(m, p, left);
    }
  }

  lemma EarlyMoves(m: M.Path, t: Talk, move: Move)
    requires M.Fits(m) && Early(m, t) && (move.Arrives? ==> move.d.choice.initOk)
    ensures InSession(m, Take(m.w, t, move))
  {
    hide M.Fits;
    hide Session.OnTrack;
    hide Session.Missed;
    hide Joining;
    hide Talking;
    hide P.Deliver;
    hide M.Keeps;
    if move.Arrives? {
      var left: nat :| Session.OnTrack(m, t.p, left) || Session.Missed(m, t.p, left);
      Session.GoesOn(m, t.p, left, move.d);
      var q := P.Deliver(m.w, t.p, move.d);
      PointOfSession(m, q, if q == t.p then left else left - 1);
    }
  }

  lemma SessionMoves(m: M.Path, t: Talk, move: Move)
    requires M.Fits(m) && InSession(m, t) && (move.Arrives? ==> move.d.choice.initOk)
    ensures InSession(m, Take(m.w, t, move))
  {
    hide M.Fits;
    hide Take;
    hide Talking;
    hide Joining;
    hide Early;
    if Early(m, t) {
      EarlyMoves(m, t, move);
    } else if Talking(m.w, t) {
      TalkGoesOn(m.w, t, move);
    } else {
      var was :| Joining(m.w, t, was);
      match move {
        case InitiatorSays(input) => JoiningSays(m.w, t, was, input);
        case ResponderSays(input) => JoiningIdles(m.w, t, was, move);
        case Arrives(d) =>
          if d.toInitiator { JoiningIdles(m.w, t, was, move); } else { JoiningEnds(m.w, t, was, d.choice); }
      }
    }
  }

  lemma JoiningIdles(w: P.Setup, t: Talk, was: P.Pair, move: Move)
    requires Joining(w, t, was) && (move.ResponderSays? || (move.Arrives? && move.d.toInitiator))
    ensures Take(w, t, move) == t
  {
    hide II.Valid;
    hide RI.Valid;
    hide I.Next;
    hide Channel;
  }

  lemma {:induction false} SessionGoesOn(m: M.Path, t: Talk, moves: seq<Move>)
    requires M.Fits(m) && InSession(m, t) && InitSucceeds(moves)
    ensures InSession(m, Run(m.w, t, moves))
    decreases |moves|
  {
    hide M.Fits;
    hide InSession;
    hide Take;
    if moves != [] {
      SessionMoves(m, t, moves[0]);
      SessionGoesOn(m, Take(m.w, t, moves[0]), moves[1..]);
    }
  }

  /**
   Nothing said is lost, repeated or reordered: what was heard, and what is on its way, is what was said. A client that
   is not in the task phase yet has something else to hear first.
   */
  ghost predicate Conserved(said: seq<Value>, heard: seq<Outcome>, queue: seq<ByteBox>, c: Common) {
    && HeardAsSaid(said, heard, c.taskTypes)
    && |said| <= |heard| + |queue|
    && (c.phase.TaskPhase? ==> |said| == |heard| + |queue|)
    && forall k :: |heard| <= k < |said| ==>
         && var b := queue[|queue| - |said| + k];
         && b.bytes.Sealed? && b.bytes.plain.value == Some(said[k])
  }

  lemma ChannelConserves(queue: seq<ByteBox>, sender: Link, receiver: Link, from: Address, to: Address, ours: KeyPair,
                         theirs: PublicKey, said: seq<Value>, heard: seq<Outcome>, c: Common)
    requires Channel(queue, sender, receiver, from, to, ours, theirs, said, |heard|)
    requires HeardAsSaid(said, heard, c.taskTypes)
    ensures Conserved(said, heard, queue, c)
  {
    hide HeardAsSaid;
  }

  lemma TalkIsConserved(w: P.Setup, t: Talk)
    requires Talking(w, t)
    ensures Conserved(t.iSaid, t.rHeard, t.p.toR, t.p.r.common)
    ensures Conserved(t.rSaid, t.iHeard, t.p.toI, t.p.i.common)
  {
    hide Channel;
    hide HeardAsSaid;
    hide Conserved;
    var c, d := t.p.i.responder.value, t.p.r.initiator;
    ChannelConserves(t.p.toR, c.link, d.link, 1, w.a, c.keypair, d.keypair.Public(), t.iSaid, t.rHeard, t.p.r.common);
    ChannelConserves(t.p.toI, d.link, c.link, w.a, 1, d.keypair, c.keypair.Public(), t.rSaid, t.iHeard, t.p.i.common);
  }

  lemma JoiningIsConserved(w: P.Setup, t: Talk, was: P.Pair)
    requires Joining(w, t, was)
    ensures Conserved(t.iSaid, t.rHeard, t.p.toR, t.p.r.common)
    ensures Conserved(t.rSaid, t.iHeard, t.p.toI, t.p.i.common)
  {
    hide II.Valid;
    hide RI.Valid;
  }

  /**
   However the tasks of two created clients send, from the first moment on and while the handshake is still going on, in
   both directions everything that goes out is conserved.
   */
  lemma SessionsTalk(m: M.Path, moves: seq<Move>)
    requires M.Fits(m) && InitSucceeds(moves)
    ensures var t := Run(m.w, Begin(M.Start(m)), moves);
            && Conserved(t.iSaid, t.rHeard, t.p.toR, t.p.r.common)
            && Conserved(t.rSaid, t.iHeard, t.p.toI, t.p.i.common)
  {
    hide M.Fits;
    hide M.Start;
    hide Talking;
    hide Joining;
    hide Conserved;
    hide Take;
    Session.StartGathers(m);
    PointOfSession(m, M.Start(m), |M.ToInitiator(m)| + |M.ToResponder(m)| + Session.Exchange(m));
    SessionGoesOn(m, Begin(M.Start(m)), moves);
    var t := Run(m.w, Begin(M.Start(m)), moves);
    if Talking(m.w, t) {
      TalkIsConserved(m.w, t);
    } else if Early(m, t) {
      EarlyIsConserved(t);
    } else {
      var was :| Joining(m.w, t, was);
      JoiningIsConserved(m.w, t, was);
    }
  }

  lemma EarlyIsConserved(t: Talk)
    requires t == Begin(t.p) && !t.p.i.common.phase.TaskPhase? && !t.p.r.common.phase.TaskPhase?
    ensures Conserved(t.iSaid, t.rHeard, t.p.toR, t.p.r.common)
    ensures Conserved(t.rSaid, t.iHeard, t.p.toI, t.p.i.common)
  {
  }

  /** And a message of the task is heard as it was sent if and only if it survives, for every key order. */
  lemma MessageIsHeard(said: seq<Value>, heard: seq<Outcome>, queue: seq<ByteBox>, types: seq<string>, k: nat,
                       c: Common, message: TaskMessage, keys: seq<string>)
    requires Conserved(said, heard, queue, c) && c.taskTypes == Some(types) && k < |heard|
    requires message.ValueMessage? ==> Lists(keys, message.fields.Keys)
    requires said[k] == OnTheWire(message, keys)
    ensures heard[k] == Ok([TaskAction(Normalised(message))]) <==> Survives(message, types)
  {
    hide TaskActions;
    hide OnTheWire;
    MessageComesBack(message, keys, types);
  }

  /** What is said for a message of the task is its value on the wire. */
  lemma OutgoingIsSaid(message: TaskMessage, keys: seq<string>, reading: Option<Message>)
    requires message.ValueMessage? ==> Lists(keys, message.fields.Keys)
    ensures !Outgoing(message, keys, reading).Receive?
            && Said(Outgoing(message, keys, reading)) == OnTheWire(message, keys)
  {
  }
}
