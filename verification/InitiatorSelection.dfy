/** Choosing the responder: how an initiator enters the task phase and whom it listens to afterwards. */
module InitiatorSelection {
  import opened Basics
  import opened CombinedSequence
  import opened Messages
  import opened Boxes
  import opened Tasks
  import opened Negotiation
  import opened Contexts
  import opened Signaling
  import opened InitiatorProtocol
  import opened InitiatorInvariants
  import opened Progression

  /** The proposal of `source` won, with the first of our tasks that it lists. */
  ghost predicate WonWith(s: Initiator, source: Address, auth: Auth, choice: Choice, t: Initiator,
                          actions: seq<Action>) {
    && source in s.responders
    && s.responders[source].handshake.RKeySent?
    && auth.yourCookie == s.responders[source].link.ourCookie
    && s.common.tasks.Some? && auth.tasks.Some?
    && t.common.task.Some?
    && t.common.task == ChooseShared(s.common.tasks.value, auth.tasks.value)
    && Won(s, source, t.common.task.value, choice, t, actions)
  }

  /** The box opens, with the session keys of its sender, to the auth message that won. */
  ghost predicate WonBy(s: Initiator, b: ByteBox, choice: Choice, t: Initiator, actions: seq<Action>) {
    && IsAuth(b)
    && WonWith(s, b.nonce.source, b.bytes.plain.message.value.auth, choice, t, actions)
    && s.responders[b.nonce.source].sessionKey.Some?
    && OpenMessage(b, s.responders[b.nonce.source].keypair, s.responders[b.nonce.source].sessionKey.value).Some?
  }

  /**
   The only way into the task phase: exactly one drop-responder for each other registered responder, in whatever
   order, then one auth message to the winner, then the report that the handshake is done. The task is the first of ours
   that the winner's opened auth message lists.
   */
  lemma TaskPhaseIsWon(s: Initiator, tape: Tape, input: Input)
    requires Valid(s, tape) && !s.common.phase.TaskPhase?
    requires Next(s, tape, input).out.Ok? && Next(s, tape, input).state.common.phase.TaskPhase?
    ensures input.Receive? && ValidateNonce(s, input.box.nonce).1.Accept?
    ensures var h := Next(s, tape, input);
            var t := ValidateNonce(s, input.box.nonce).0;
            WonBy(t, input.box, input.choice, h.state, h.out.actions)
  {
    hide ValidateNonce;
    hide HandleValid;
    hide Valid;
    hide WonBy;
    NextFollows(s, tape, input);
    if !input.Receive? {
      SendNeedsTask(s, input, tape);
    } else {
      ValidationHears(s, tape, input.box.nonce);
      var (t, v) := ValidateNonce(s, input.box.nonce);
      if v.Accept? {
        HeardIsValid(s, tape, t);
        ValidMessageWins(t, tape, input.box, input.choice);
      }
    }
  }

  lemma SendNeedsTask(s: Initiator, input: Input, tape: Tape)
    requires !input.Receive? && !s.common.phase.TaskPhase?
    ensures Next(s, tape, input).out.Err?
  {
  }

  lemma ValidMessageWins(s: Initiator, tape: Tape, b: ByteBox, choice: Choice)
    requires Valid(s, tape) && !s.common.phase.TaskPhase? && b.nonce.source != 1
    requires PeerLink(s, b.nonce.source).Some? && PeerLink(s, b.nonce.source).value.theirCookie.Some?
    requires b.nonce.source != 0 ==> !s.common.phase.ServerHandshake?
    requires HandleValid(s, b, tape, choice).out.Ok? && HandleValid(s, b, tape, choice).state.common.phase.TaskPhase?
    ensures var h := HandleValid(s, b, tape, choice);
            WonBy(s, b, choice, h.state, h.out.actions)
  {
    hide HandleServerMessage;
    hide HandleAuth;
    hide WonWith;
    hide AuthValid;
    hide Csn.Increment;
    if b.nonce.source == 0 {
      var m := DecodeServer(s.common, b);
      if m.Success? { ServerNeverWins(s, tape, m.value, b.nonce, choice); }
    } else {
      var d := DecodePeer(s, b);
      if d.Success? && d.value.AuthMsg? && s.responders[b.nonce.source].handshake.RKeySent? {
        AuthWins(s, tape, d.value.auth, b.nonce.source, choice);
      }
    }
  }

  lemma ServerNeverWins(s: Initiator, tape: Tape, m: Message, nonce: Nonce, choice: Choice)
    requires Valid(s, tape) && !s.common.phase.TaskPhase? && s.common.server.link.theirCookie.Some?
    ensures var h := HandleServerMessage(s, m, nonce, tape, choice);
            h.out.Ok? ==> !h.state.common.phase.TaskPhase?
  {
  }

  lemma AuthWins(s: Initiator, tape: Tape, auth: Auth, source: Address, choice: Choice)
    requires Valid(s, tape) && s.common.phase.PeerHandshake? && source in s.responders
    requires s.responders[source].handshake.RKeySent? && s.responders[source].link.theirCookie.Some?
    ensures var h := HandleAuth(s, auth, source, choice);
            h.out.Ok? && h.state.common.phase.TaskPhase? ==> WonWith(s, source, auth, choice, h.state, h.out.actions)
  {
    hide SelectWinner;
    hide CloseWithoutTask;
    hide Valid;
    hide Won;
    if s.common.tasks.Some? && ProposalPasses(auth) {
      var c := ChooseShared(s.common.tasks.value, auth.tasks.value);
      if c.Some? {
        WinnerIsAnswered(s, tape, source, c.value, choice);
        var w := SelectWinner(TakenOut(s, source), s.responders[source], c.value, choice);
        if w.out.Ok? { WonTask(s, source, c.value, choice, w.state, w.out.actions); }
      }
    }
  }

  lemma WonTask(s: Initiator, source: Address, task: Task, choice: Choice, t: Initiator, actions: seq<Action>)
    requires source in s.responders && Won(s, source, task, choice, t, actions)
    ensures t.common.task == Some(task) && t.responder.Some?
            && t.responder.value.address == s.responders[source].address
  {
  }

  /** The drop messages of a winning step name every other responder once and the winner never. */
  lemma DropsNameTheOthers(s: Initiator, b: ByteBox, choice: Choice, t: Initiator, actions: seq<Action>)
    requires WonBy(s, b, choice, t, actions)
    ensures exists others :: Lists(others, s.responders.Keys - {b.nonce.source}) && |actions| == |others| + 2
              && forall i :: 0 <= i < |others| ==> IsDrop(s.common, actions[i], others[i], DROPPED_BY_INITIATOR)
  {
  }

  /** In the task phase a message from any responder but the chosen one changes nothing. */
  lemma OnlyTheChosenIsHeard(s: Initiator, tape: Tape, b: ByteBox, choice: Choice)
    requires Valid(s, tape) && s.common.phase.TaskPhase?
    requires 2 <= b.nonce.source && b.nonce.source != s.responder.value.address
    ensures var h := HandleMessage(s, b, tape, choice);
            h.state == s && h.out == if b.nonce.destination == 1 then Ok([]) else Err(InvalidNonce)
  {
  }

  /** The listed addresses fall apart into the dropped ones, each told so once, and the retained ones. */
  ghost predicate Partition(c: Common, listed: seq<Address>, dropped: seq<Address>, kept: set<Address>,
                            actions: seq<Action>) {
    && NoDup(dropped)
    && |dropped| + |kept| == |listed|
    && |dropped| <= |actions|
    && (forall a :: a in listed <==> a in dropped || a in kept)
    && (forall i :: 0 <= i < |dropped| ==> dropped[i] !in kept)
    && (forall i :: 0 <= i < |dropped| ==> IsDrop(c, actions[i], dropped[i], DROPPED_BY_INITIATOR))
  }

  /**
   Server-auth conservation: the listed responders split exactly into those retained and those dropped;
   min(n, 252) are retained without a trusted key, all of them with one.
   */
  lemma ServerAuthConserves(s: Initiator, tape: Tape, m: Message, nonce: Nonce, choice: Choice)
    returns (dropped: seq<Address>)
    requires Valid(s, tape) && s.common.server.handshake.ClientInfoSent? && m.ServerAuth?
    requires HandleServerAuth(s, m, nonce, tape, choice).out.Ok?
    ensures ListingPasses(m)
    ensures var h := HandleServerAuth(s, m, nonce, tape, choice);
            var n := |m.responders.value|;
            && |h.state.responders| == (if Trusted(s.common) || n <= MAX_RESPONDERS then n else MAX_RESPONDERS)
            && Partition(s.common, m.responders.value, dropped, h.state.responders.Keys, h.out.actions)
            && h.out.actions[|dropped|..] == [Notify(ServerHandshakeDone(n == 0))]
  {
    hide RegisterAll;
    hide CheckServerAuth;
    hide AuthValid;
    hide MapValid;
    hide Split;
    hide ServerSent;
    hide Partition;
    var listed := m.responders.value;
    var order := choice.order(set a | a in listed);
    ListingIsInRange(m, choice.order);
    RegisterAllSplits(s, tape, order);
    var r := RegisterAll(s, order, tape);
    SplitSize(s, order, r.state, r.out.actions);
    ListingHasNoDup(m);
    SplitIsPartition(s, listed, order, r.state, r.out.actions, HandleServerAuth(s, m, nonce, tape, choice).out.actions);
    dropped := order[..|r.out.actions|];
  }

  lemma SplitIsPartition(s: Initiator, listed: seq<Address>, order: seq<Address>, t: Initiator, drops: seq<Action>,
                         actions: seq<Action>)
    requires Split(s, order, t, drops) && Lists(order, set a | a in listed) && NoDup(listed)
    requires |drops| <= |actions| && actions[..|drops|] == drops
    ensures |order| == |listed|
    ensures |drops| <= |order| && Partition(s.common, listed, order[..|drops|], t.responders.Keys, actions)
  {
    hide IsDrop;
    hide ServerSent;
    var w, all := |drops|, set a | a in listed;
    ListingLength(order, all);
    ListingLength(listed, all);
    KeptSize(t.responders, order, w);
    assert forall a :: a in listed <==> a in all;
    forall i | 0 <= i < w ensures order[i] !in t.responders { NotInWindow(order, w, i); }
    forall a ensures a in listed <==> a in order[..w] || a in t.responders.Keys {
      BeforeOrInWindow(order, w, a);
      assert a in all <==> a in order;
    }
    assert forall i :: 0 <= i < w ==> order[..w][i] == order[i];
    assert |t.responders.Keys| == |t.responders|;
    assert forall i :: 0 <= i < w ==> actions[i] == drops[i];
  }

  /** The size comparison in the code is exact: it accepts the lists without repetitions and no others. */
  lemma ListingHasNoDup(m: Message)
    requires m.ServerAuth? && m.responders.Some?
    ensures |set a | a in m.responders.value| == |m.responders.value| <==> NoDup(m.responders.value)
  {
    var listed := m.responders.value;
    NoDupIffFullSize<Address>(listed);
    assert (set a | a in listed) == (set a: Address | a in listed);
  }

  lemma NotInWindow(order: seq<Address>, w: nat, i: nat)
    requires NoDup(order) && i < w <= |order|
    ensures !InWindow(order, w, order[i])
  {
  }

  lemma BeforeOrInWindow(order: seq<Address>, w: nat, a: Address)
    requires w <= |order|
    ensures a in order <==> a in order[..w] || InWindow(order, w, a)
  {
  }
}
