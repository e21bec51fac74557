/** The initiator as an object whose handlers update its fields in place, each proved against its function. */
module InitiatorObject {
  import opened Basics
  import opened CombinedSequence
  import opened Messages
  import opened Boxes
  import opened Tasks
  import opened Negotiation
  import opened Contexts
  import opened Signaling
  import opened SharedObject
  import P = InitiatorProtocol
  import V = InitiatorInvariants

  /** The legal forward edges of a responder's handshake, one setter call at a time. */
  predicate ResponderEdge(from: ResponderState, to: ResponderState) {
    || (from.ResponderNew? && to.TokenReceived?)
    || (from.TokenReceived? && to.RKeyReceived?)
    || (from.RKeyReceived? && to.RKeySent?)
    || (from.RKeySent? && to.RAuthReceived?)
    || (from.RAuthReceived? && to.RAuthSent?)
  }

  /** The setter checks nothing; its callers keep to the forward edges. */
  method SetHandshakeState(r: ResponderContext, to: ResponderState) returns (q: ResponderContext)
    requires ResponderEdge(r.handshake, to)
    ensures q == r.(handshake := to)
  {
    q := r.(handshake := to);
  }

  class InitiatorSignaling {
    const common: SharedState
    const tape: Tape
    var responders: map<Address, ResponderContext>
    var responder: Option<ResponderContext>
    var counter: nat

    function State(): P.Initiator
      reads this, common
    {
      P.Initiator(common.Get(), responders, responder, counter)
    }

    ghost predicate Valid()
      reads this, common
    {
      V.Valid(State(), tape)
    }

    constructor (permanent: KeyPair, tasks: seq<Task>, auth: AuthProvider, serverKey: Option<PublicKey>, d: Draw,
                 tape: Tape)
      ensures fresh(common) && this.tape == tape
      ensures State() == P.Create(permanent, tasks, auth, serverKey, d)
      ensures Valid()
    {
      common := new SharedState(permanent, auth, serverKey, tasks, d);
      this.tape := tape;
      responders := map[];
      responder := None;
      counter := 0;
    }

    // ---------- Nonce validation ----------

    method ValidateNonceDestination(nonce: Nonce) returns (v: Verdict)
      modifies common`identity
      ensures (State(), v) == P.ValidateDestination(old(State()), nonce)
    {
      if common.identity.Unknown? && nonce.destination != 0 && !common.server.handshake.ServerNew? {
        if nonce.destination != 1 { return Fail; }
        common.identity := IsInitiator;
      }
      if nonce.destination != AddressOf(common.identity) { return Fail; }
      return Accept;
    }

    method ValidateNonceSource(nonce: Nonce) returns (v: Verdict)
      ensures v == P.ValidateSource(State(), nonce)
    {
      if nonce.source == 0 { return Accept; }
      if nonce.source == 1 { return DropMsg; }
      if common.identity.IsInitiator? { return Accept; }
      return DropMsg;
    }

    /** Stores what we know of the peer at an address back into its context. */
    method SetPeerLink(addr: Address, l: Link)
      requires P.PeerLink(State(), addr).Some?
      modifies this`responders, this`responder, common`server
      ensures State() == P.WithPeerLink(old(State()), addr, l)
    {
      if addr == 0 {
        common.server := common.server.(link := l);
      } else if common.phase.TaskPhase? {
        responder := Some(responder.value.(link := l));
      } else {
        responders := responders[addr := responders[addr].(link := l)];
      }
    }

    method ValidateNonceCsn(nonce: Nonce) returns (v: Verdict)
      modifies this`responders, this`responder, common`server
      ensures match P.PeerLink(old(State()), nonce.source)
              case None =>
                && State() == old(State())
                && v == if 2 <= nonce.source then DropMsg else CrashWith(InvalidSender)
              case Some(l) =>
                && State() == P.WithPeerLink(old(State()), nonce.source, CheckCsn(l, nonce).0)
                && v == if CheckCsn(l, nonce).1 then Accept else Fail
    {
      var peer := P.PeerLink(State(), nonce.source);
      if peer.None? {
        return if 2 <= nonce.source then DropMsg else CrashWith(InvalidSender);
      }
      var l := peer.value;
      SameLink(State(), nonce.source);
      if l.theirCsn.Some? {
        if !l.theirCsn.value.Less(nonce.csn) { return Fail; }
      } else if nonce.csn.overflow != 0 {
        return Fail;
      }
      SetPeerLink(nonce.source, l.(theirCsn := Some(nonce.csn)));
      return Accept;
    }

    method ValidateNonceCookie(nonce: Nonce) returns (v: Verdict)
      requires P.PeerLink(State(), nonce.source).Some?
      modifies this`responders, this`responder, common`server
      ensures var l := P.PeerLink(old(State()), nonce.source).value;
              && State() == P.WithPeerLink(old(State()), nonce.source, CheckCookie(l, nonce).0)
              && v == if CheckCookie(l, nonce).1 then Accept else Fail
    {
      var l := P.PeerLink(State(), nonce.source).value;
      SameLink(State(), nonce.source);
      if l.theirCookie.Some? {
        return if nonce.cookie == l.theirCookie.value then Accept else Fail;
      }
      if nonce.cookie == l.ourCookie { return Fail; }
      SetPeerLink(nonce.source, l.(theirCookie := Some(nonce.cookie)));
      return Accept;
    }

    method ValidateNonce(nonce: Nonce) returns (v: Verdict)
      modifies this`responders, this`responder, common`server, common`identity
      ensures (State(), v) == P.ValidateNonce(old(State()), nonce)
    {
      v := ValidateNonceDestination(nonce);
      if !v.Accept? { return; }
      v := ValidateNonceSource(nonce);
      if !v.Accept? { return; }
      ghost var s := State();
      v := ValidateNonceCsn(nonce);
      if !v.Accept? { return; }
      ghost var l := CheckCsn(P.PeerLink(s, nonce.source).value, nonce).0;
      LinkIsStored(s, nonce.source, l, CheckCookie(l, nonce).0);
      v := ValidateNonceCookie(nonce);
    }

    // ---------- Path cleaning ----------

    /**
     The address of the longest waiting responder that has sent nothing valid yet, in whatever order they are
     visited.
     */
    method FindOldestInactive(order: IterOrder) returns (oldest: Option<ResponderContext>)
      requires V.MapValid(responders, counter, tape)
      ensures oldest == P.OldestBelow(responders, 256)
    {
      var keys := order(responders.Keys);
      oldest := None;
      for k := 0 to |keys|
        invariant IsOldestOf(responders, keys[..k], oldest)
      {
        var r := responders[keys[k]];
        if r.handshake.ResponderNew? && (oldest.None? || r.counter < oldest.value.counter) {
          oldest := Some(r);
        }
        assert keys[..k + 1] == keys[..k] + [keys[k]];
      }
      assert keys[..|keys|] == keys;
      OldestIsUnique(responders, counter, tape, keys, oldest);
    }

    method DropOldestInactiveResponder(order: IterOrder) returns (out: Outcome)
      requires V.MapValid(responders, counter, tape)
      modifies this`responders, common`server
      ensures Step(State(), out) == P.DropOldestInactive(old(State()))
    {
      var oldest := FindOldestInactive(order);
      if oldest.None? { return Ok([]); }
      if oldest.value.address !in responders { return Err(Crash(CandidateVanished)); }
      responders := responders - {oldest.value.address};
      out := common.SendDropResponder(oldest.value.address, DROPPED_BY_INITIATOR);
    }

    /** A context for a responder; one that we trust starts past the token. */
    method NewResponder(a: Address) returns (r: Option<ResponderContext>)
      modifies this`counter
      ensures if old(counter) == P.COUNTER_MAX then r.None? && counter == old(counter)
              else r == Some(P.NewContext(old(State()), a, tape(old(counter)))) && counter == old(counter) + 1
    {
      if counter == P.COUNTER_MAX { return None; }
      var d := tape(counter);
      var q := ResponderContext(ResponderNew, counter, a, None, None, d.keypair, FreshLink(d));
      counter := counter + 1;
      if common.auth.Some? && common.auth.value.ByTrustedKey? {
        q := q.(permanentKey := Some(common.auth.value.key));
        q := SetHandshakeState(q, TokenReceived);
      }
      return Some(q);
    }

    method ProcessNewResponder(a: Address, order: IterOrder) returns (out: Outcome)
      requires V.CoreValid(State(), tape) && 2 <= a
      modifies this`responders, this`counter, common`server
      ensures Step(State(), out) == P.ProcessNewResponder(old(State()), a, tape)
    {
      hide V.CoreValid;
      hide V.MapValid;
      hide P.DropOldestInactive;
      ghost var s := State();
      JoinedIsOrdered(s, tape, a);
      responders := responders - {a};
      var r := NewResponder(a);
      if r.None? { return Err(Crash(CounterOverflow)); }
      responders := responders[a := r.value];
      RemoveThenInsert(s.responders, a, r.value);
      assert State() == V.Joined(s, tape, a);
      if |responders| > P.MAX_RESPONDERS {
        out := DropOldestInactiveResponder(order);
      } else {
        out := Ok([]);
      }
    }

    // ---------- Server messages ----------

    method HandleServerAuth(m: Message, nonce: Nonce, choice: Choice) returns (out: Outcome)
      requires m.ServerAuth? && Valid() && common.server.handshake.ClientInfoSent?
      modifies this`responders, this`counter, common`server, common`phase
      ensures Step(State(), out) == P.HandleServerAuth(old(State()), m, nonce, tape, choice)
    {
      hide V.CoreValid;
      hide P.ProcessNewResponder;
      ghost var s := State();
      var e := CheckServerAuth(common.Get(), m, nonce);
      if e.Some? { return Err(e.value); }
      if !P.ListingPasses(m) { return Err(InvalidMessage); }
      var order := choice.order(set a | a in m.responders.value);
      V.ListingIsInRange(m, choice.order);
      var actions: seq<Action> := [];
      StartsRegistering(s, tape);
      for k := 0 to |order|
        invariant P.RegisterAll(s, order[..k], tape) == Step(State(), Ok(actions))
        invariant V.CoreValid(State(), tape) && common.server.handshake.ClientInfoSent?
      {
        RegistersNext(s, tape, order, k);
        var q := ProcessNewResponder(order[k], choice.order);
        if q.Err? {
          RegisteringFails(s, tape, order, k + 1);
          return q;
        }
        actions := actions + q.actions;
      }
      assert order[..|order|] == order;
      out := common.FinishServerHandshake(actions + [Notify(ServerHandshakeDone(m.responders.value == []))]);
    }

    method HandleServerMessage(m: Message, nonce: Nonce, choice: Choice) returns (out: Outcome)
      requires Valid()
      modifies this`responders, this`counter, common`server, common`phase
      ensures Step(State(), out) == P.HandleServerMessage(old(State()), m, nonce, tape, choice)
    {
      hide P.ProcessNewResponder;
      hide P.HandleServerAuth;
      hide Signaling.HandleServerHello;
      StartsRegistering(State(), tape);
      var state := common.server.handshake;
      if state.ServerNew? && m.ServerHello? {
        out := common.HandleServerHello(false, m.key);
      } else if state.ClientInfoSent? && m.ServerAuth? {
        out := HandleServerAuth(m, nonce, choice);
      } else if state.ServerDone? && m.NewInitiator? {
        out := Err(Protocol);
      } else if state.ServerDone? && m.NewResponder? {
        if m.id < 2 { return Err(InvalidMessage); }
        out := ProcessNewResponder(m.id, choice.order);
      } else if state.ServerDone? && m.DropResponder? {
        out := Err(Crash(Unimplemented));
      } else if state.ServerDone? && m.SendError? {
        out := Err(PeerUnreachable);
      } else if state.ServerDone? && m.Disconnected? {
        out := if m.id < 2 then Err(Protocol) else Ok([Notify(PeerDisconnected(m.id))]);
      } else {
        out := Err(InvalidStateTransition);
      }
    }

    // ---------- Peer handshake ----------

    method HandleToken(key: PublicKey, source: Address) returns (out: Outcome)
      requires source in responders && responders[source].handshake.ResponderNew?
      modifies this`responders, common`auth
      ensures Step(State(), out) == P.HandleToken(old(State()), key, source)
    {
      var r := responders[source];
      if r.permanentKey.Some? { return Err(Crash(PermanentKeyAlreadySet)); }
      r := r.(permanentKey := Some(key));
      r := SetHandshakeState(r, TokenReceived);
      responders := responders[source := r];
      if !(common.auth.Some? && common.auth.value.ByToken?) { return Err(Crash(AuthProviderNotToken)); }
      common.auth := None;
      return Ok([]);
    }

    method HandleKey(key: PublicKey, source: Address) returns (out: Outcome)
      requires source in responders && responders[source].handshake.TokenReceived?
      modifies this`responders
      ensures Step(State(), out) == P.HandleKey(old(State()), key, source)
    {
      var r := responders[source];
      if r.sessionKey.Some? { return Err(Crash(SessionKeyAlreadySet)); }
      if r.permanentKey.None? { return Err(Crash(PermanentKeyNotSet)); }
      if r.permanentKey.value == key { return Err(Protocol); }
      r := r.(sessionKey := Some(key));
      r := SetHandshakeState(r, RKeyReceived);
      responders := responders[source := r];
      var csn := r.link.ourCsn.Increment();
      if csn.None? { return Err(CsnOverflow); }
      r := r.(link := r.link.(ourCsn := csn.value));
      var nonce := Nonce(r.link.ourCookie, AddressOf(common.identity), r.address, csn.value);
      var box := Seal(Encode(Key(r.keypair.Public())), nonce, common.permanent, r.permanentKey.value);
      r := SetHandshakeState(r, RKeySent);
      assert old(responders)[source := responders[source]][source := r] == old(responders)[source := r];
      responders := responders[source := r];
      return Ok([Reply(box)]);
    }

    /** Drops every responder that is left, in the order the map happens to be iterated. */
    method DropOthers(order: IterOrder) returns (out: Outcome)
      modifies common`server
      ensures Step(common.Get(), out) == DropAll(old(common.Get()), order(responders.Keys))
    {
      var ids := order(responders.Keys);
      var actions: seq<Action> := [];
      for k := 0 to |ids|
        invariant DropAll(old(common.Get()), ids[..k]) == Step(common.Get(), Ok(actions))
      {
        assert ids[..k + 1][..k] == ids[..k];
        var d := common.SendDropResponder(ids[k], DROPPED_BY_INITIATOR);
        if d.Err? {
          DroppingFails(old(common.Get()), ids, k + 1);
          return d;
        }
        actions := actions + d.actions;
      }
      assert ids[..|ids|] == ids;
      return Ok(actions);
    }

    method SelectWinner(winner: ResponderContext, task: Task, choice: Choice) returns (out: Outcome)
      requires winner.handshake.RKeySent?
      modifies this`responders, this`responder, common`server, common`phase, common`task, common`taskTypes
      ensures Step(State(), out) == P.SelectWinner(old(State()), winner, task, choice)
    {
      hide DropAll;
      hide Csn.Increment;
      var drops := DropOthers(choice.order);
      if drops.Err? { return drops; }
      responders := map[];
      var r := SetHandshakeState(winner, RAuthReceived);
      if r.link.theirCookie.None? { return Err(Crash(ResponderCookieNotSet)); }
      var auth := BuildAuth(r.link.theirCookie.value, task);
      var csn := r.link.ourCsn.Increment();
      if csn.None? { return Err(CsnOverflow); }
      r := r.(link := r.link.(ourCsn := csn.value));
      var nonce := Nonce(r.link.ourCookie, AddressOf(common.identity), r.address, csn.value);
      if r.sessionKey.None? { return Err(Crash(PeerSessionKeyNotSet)); }
      var box := Seal(Encode(AuthMsg(auth)), nonce, r.keypair, r.sessionKey.value);
      common.taskTypes := Some(task.types);
      common.task := Some(task);
      r := SetHandshakeState(r, RAuthSent);
      var e := common.SetSignalingState(TaskPhase);
      if e.Some? { return Err(e.value); }
      responder := Some(r);
      return Ok(drops.actions + [Reply(box), HandshakeDone]);
    }

    method HandleAuth(auth: Auth, source: Address, choice: Choice) returns (out: Outcome)
      requires source in responders && responders[source].handshake.RKeySent?
      modifies this`responders, this`responder, common`server, common`phase, common`tasks, common`task, common`taskTypes
      ensures Step(State(), out) == P.HandleAuth(old(State()), auth, source, choice)
    {
      hide P.SelectWinner;
      hide ProposalPasses;
      var r := responders[source];
      responders := responders - {source};
      if auth.yourCookie != r.link.ourCookie { return Err(Protocol); }
      var passes := CheckProposal(auth);
      if !passes { return Err(InvalidMessage); }
      var ours := common.tasks;
      common.tasks := None;
      if ours.None? { return Err(Crash(NoTasks)); }
      ProposalNames(auth);
      var chosen := ChooseSharedTask(ours.value, auth.tasks.value);
      if chosen.None? {
        out := Ok(P.CloseWithoutTask(common.Get(), r));
      } else if chosen.value.name !in auth.data {
        out := Err(Crash(TaskDataNotFound));
      } else if !choice.initOk {
        out := Err(TaskInitialization);
      } else {
        out := SelectWinner(r, chosen.value, choice);
      }
    }

    method HandleHandshakePeerMessage(b: ByteBox, choice: Choice) returns (out: Outcome)
      modifies this`responders, this`responder, common
      ensures Step(State(), out) == P.HandleHandshakePeer(old(State()), b, choice)
    {
      hide P.HandleToken;
      hide P.HandleKey;
      hide P.HandleAuth;
      hide SendDrop;
      if b.nonce.source == 0 { return Err(Crash(PeerMessageFromServer)); }
      var d := P.DecodePeer(State(), b);
      if d == Failure(CouldNotDecrypt) {
        out := common.SendDropResponder(b.nonce.source, INITIATOR_COULD_NOT_DECRYPT);
        return;
      }
      if d.Failure? { return Err(d.error); }
      var m, source := d.value, b.nonce.source;
      match common.phase {
        case ServerHandshake => return Err(Crash(IllegalStateServerHandshake));
        case TaskPhase => return Err(Crash(IllegalStateTask));
        case PeerHandshake =>
      }
      if source !in responders { return Err(Crash(ResponderNotFound)); }
      var state := responders[source].handshake;
      if state.ResponderNew? && m.Token? {
        out := HandleToken(m.key, source);
      } else if state.TokenReceived? && m.Key? {
        out := HandleKey(m.key, source);
      } else if state.RKeySent? && m.AuthMsg? {
        out := HandleAuth(m.auth, source, choice);
      } else {
        out := Err(InvalidStateTransition);
      }
    }

    // ---------- Task phase ----------

    method HandleTaskPeerMessage(b: ByteBox) returns (out: Outcome)
      ensures Step(State(), out) == P.HandleTaskPeer(State(), b)
    {
      if b.nonce.source == 0 { return Err(Crash(PeerMessageFromServer)); }
      if responder.None? { return Err(Crash(PeerNotSet)); }
      if responder.value.sessionKey.None? { return Err(Crash(PeerSessionKeyNotSet)); }
      var v := OpenValue(b, responder.value.keypair, responder.value.sessionKey.value);
      if v.None? { return Err(Decode); }
      out := common.TaskMessageActions(v.value);
    }

    /** Seals a message of the task for the chosen responder. */
    method EncodeForPeer(plain: Plain) returns (out: Outcome)
      modifies this`responder
      ensures Step(State(), out) == P.SendPeer(old(State()), plain)
    {
      hide Csn.Increment;
      if !common.phase.TaskPhase? { return Err(Crash(NotInTaskState)); }
      if responder.None? { return Err(Crash(PeerNotSet)); }
      var r := responder.value;
      var csn := r.link.ourCsn.Increment();
      if csn.None? { return Err(CsnOverflow); }
      r := r.(link := r.link.(ourCsn := csn.value));
      responder := Some(r);
      if r.sessionKey.None? { return Err(Crash(PeerSessionKeyNotSet)); }
      var nonce := Nonce(r.link.ourCookie, AddressOf(common.identity), r.address, csn.value);
      return Ok([Reply(Seal(plain, nonce, r.keypair, r.sessionKey.value))]);
    }

    // ---------- The whole step ----------

    method HandleMessage(b: ByteBox, choice: Choice) returns (out: Outcome)
      requires Valid()
      modifies this, common
      ensures Step(State(), out) == P.HandleMessage(old(State()), b, tape, choice)
      ensures out.Ok? ==> Valid()
    {
      hide P.ValidateNonce;
      hide P.HandleServerMessage;
      hide P.HandleHandshakePeer;
      hide P.HandleTaskPeer;
      hide V.Valid;
      StepIsValid(State(), tape, Receive(b, choice));
      ValidatedIsValid(State(), tape, b.nonce);
      var v := ValidateNonce(b.nonce);
      match v {
        case DropMsg => return Ok([]);
        case Fail => return Err(InvalidNonce);
        case CrashWith(site) => return Err(Crash(site));
        case Accept =>
      }
      if b.nonce.source == 0 {
        var m := DecodeServer(common.Get(), b);
        if m.Failure? { return Err(m.error); }
        out := HandleServerMessage(m.value, b.nonce, choice);
      } else if common.phase.TaskPhase? {
        out := HandleTaskPeerMessage(b);
      } else {
        out := HandleHandshakePeerMessage(b, choice);
      }
    }

    method EncodeTaskMessage(value: Value, reading: Option<Message>) returns (out: Outcome)
      requires Valid()
      modifies this`responder
      ensures Step(State(), out) == P.Next(old(State()), tape, SendTask(value, reading))
      ensures out.Ok? ==> Valid()
    {
      StepIsValid(State(), tape, SendTask(value, reading));
      out := EncodeForPeer(EncodeValue(value, reading));
    }

    method EncodeCloseMessage(code: CloseCode) returns (out: Outcome)
      requires Valid()
      modifies this`responder
      ensures Step(State(), out) == P.Next(old(State()), tape, SendClose(code))
      ensures out.Ok? ==> Valid()
    {
      StepIsValid(State(), tape, SendClose(code));
      out := EncodeForPeer(Encode(Close(code.AsNumber())));
    }
  }

  /** Builds the auth message in place and hands it over. */
  method BuildAuth(cookie: Cookie, task: Task) returns (auth: Auth)
    ensures auth == InitiatorAuth(cookie, task)
  {
    var builder := new InitiatorAuthBuilder(cookie);
    builder.SetTask(task);
    var built := builder.Build();
    auth := built.value;
  }

  /** The structural checks on a proposal, in the order the code makes them. */
  method CheckProposal(auth: Auth) returns (passes: bool)
    ensures passes <==> ProposalPasses(auth)
  {
    if auth.task.Some? || auth.tasks.None? || auth.tasks.value == [] { return false; }
    var names := auth.tasks.value;
    if |auth.data| != |names| { return false; }
    for k := 0 to |names|
      invariant forall j :: 0 <= j < k ==> names[j] in auth.data
    {
      if names[k] !in auth.data { return false; }
    }
    return true;
  }

  lemma ProposalNames(auth: Auth)
    requires ProposalPasses(auth)
    ensures auth.tasks.Some?
  {
  }

  lemma StepIsValid(s: P.Initiator, tape: Tape, input: Input)
    requires V.Valid(s, tape)
    ensures P.Next(s, tape, input).out.Ok? ==> V.Valid(P.Next(s, tape, input).state, tape)
  {
    V.NextFollows(s, tape, input);
  }

  lemma ValidatedIsValid(s: P.Initiator, tape: Tape, n: Nonce)
    requires V.Valid(s, tape)
    ensures P.ValidateNonce(s, n).1.Accept? ==> V.Valid(P.ValidateNonce(s, n).0, tape)
  {
    hide P.ValidateNonce;
    hide V.Valid;
    V.ValidationHears(s, tape, n);
    if P.ValidateNonce(s, n).1.Accept? { V.HeardIsValid(s, tape, P.ValidateNonce(s, n).0); }
  }

  /** A failure part of the way is the failure of the whole. */
  lemma {:induction false} DroppingFails(c: Common, ids: seq<Address>, k: nat)
    requires k <= |ids| && DropAll(c, ids[..k]).out.Err?
    ensures DropAll(c, ids) == DropAll(c, ids[..k])
    decreases |ids|
  {
    hide SendDrop;
    if k == |ids| {
      assert ids[..k] == ids;
    } else {
      var front := ids[..|ids| - 1];
      assert front[..k] == ids[..k];
      DroppingFails(c, front, k);
    }
  }

  // ---------- Links ----------

  /** Storing back what is there changes nothing. */
  lemma SameLink(s: P.Initiator, a: Address)
    requires P.PeerLink(s, a).Some?
    ensures P.WithPeerLink(s, a, P.PeerLink(s, a).value) == s
  {
  }

  /** What was stored last is what is found, and it hides what was stored before. */
  lemma LinkIsStored(s: P.Initiator, a: Address, l: Link, k: Link)
    requires P.PeerLink(s, a).Some?
    ensures P.PeerLink(P.WithPeerLink(s, a, l), a) == Some(l)
    ensures P.WithPeerLink(P.WithPeerLink(s, a, l), a, k) == P.WithPeerLink(s, a, k)
  {
  }

  // ---------- The oldest inactive responder ----------

  /** Of the contexts at the listed addresses that are in their initial state, one with the least counter. */
  ghost predicate IsOldestOf(m: map<Address, ResponderContext>, keys: seq<Address>, oldest: Option<ResponderContext>) {
    && (oldest.Some? ==>
          exists a :: a in keys && a in m && m[a] == oldest.value && m[a].handshake.ResponderNew?)
    && (forall a :: a in keys && a in m && m[a].handshake.ResponderNew? ==>
          oldest.Some? && oldest.value.counter <= m[a].counter)
  }

  lemma OldestIsUnique(m: map<Address, ResponderContext>, counter: nat, tape: Tape, keys: seq<Address>,
                       oldest: Option<ResponderContext>)
    requires V.MapValid(m, counter, tape) && Lists(keys, m.Keys) && IsOldestOf(m, keys, oldest)
    ensures oldest == P.OldestBelow(m, 256)
  {
    V.OldestIsLeast(m, 256);
  }

  lemma RemoveThenInsert(m: map<Address, ResponderContext>, a: Address, r: ResponderContext)
    ensures (m - {a})[a := r] == m[a := r]
  {
  }

  lemma JoinedIsOrdered(s: P.Initiator, tape: Tape, a: Address)
    requires V.CoreValid(s, tape) && 2 <= a
    ensures s.counter != P.COUNTER_MAX ==> V.MapValid(V.Joined(s, tape, a).responders, s.counter + 1, tape)
  {
    hide V.AuthValid;
    hide V.MapValid;
    if s.counter != P.COUNTER_MAX { V.JoinedIsOrdered(s, tape, a); }
  }

  // ---------- Registering the listed responders ----------

  lemma StartsRegistering(s: P.Initiator, tape: Tape)
    requires V.Valid(s, tape)
    ensures V.CoreValid(s, tape)
  {
  }

  /** Registering one more of the list is one more step from where the list so far led. */
  lemma RegistersNext(s: P.Initiator, tape: Tape, order: seq<Address>, k: nat)
    requires V.Valid(s, tape) && s.common.server.handshake.ClientInfoSent?
    requires V.ResponderAddresses(order) && k < |order|
    requires P.RegisterAll(s, order[..k], tape).out.Ok?
    ensures order[..k + 1][..k] == order[..k] && order[..k + 1][k] == order[k] && 2 <= order[k]
    ensures var h := P.RegisterAll(s, order[..k + 1], tape);
            h.out.Ok? ==> V.CoreValid(h.state, tape) && h.state.common.server.handshake.ClientInfoSent?
  {
    hide P.RegisterAll;
    hide V.CoreValid;
    hide V.Split;
    PhaseBeforeAuth(s, tape);
    V.RegisterAllSplits(s, tape, order[..k + 1]);
    var h := P.RegisterAll(s, order[..k + 1], tape);
    if h.out.Ok? { V.SplitCommon(s, order[..k + 1], h.state, h.out.actions); }
  }

  lemma PhaseBeforeAuth(s: P.Initiator, tape: Tape)
    requires V.Valid(s, tape) && s.common.server.handshake.ClientInfoSent?
    ensures s.common.phase.ServerHandshake? && s.common.server.sessionKey.Some?
  {
  }

  /** A failure part of the way is the failure of the whole. */
  lemma {:induction false} RegisteringFails(s: P.Initiator, tape: Tape, order: seq<Address>, k: nat)
    requires k <= |order| && P.RegisterAll(s, order[..k], tape).out.Err?
    ensures P.RegisterAll(s, order, tape) == P.RegisterAll(s, order[..k], tape)
    decreases |order|
  {
    hide P.ProcessNewResponder;
    if k == |order| {
      assert order[..k] == order;
    } else {
      var front := order[..|order| - 1];
      assert front[..k] == order[..k];
      RegisteringFails(s, tape, front, k);
    }
  }
}
