/** The mutable state both roles share, and the handlers that work on it alone. */
module SharedObject {
  import opened Basics
  import opened CombinedSequence
  import opened Messages
  import opened Boxes
  import opened Tasks
  import opened Contexts
  import opened Signaling

  /** The legal forward edges of the server handshake. */
  predicate ServerEdge(from: ServerState, to: ServerState) {
    (from.ServerNew? && to.ClientInfoSent?) || (from.ClientInfoSent? && to.ServerDone?)
  }

  class SharedState {
    const permanent: KeyPair
    var phase: SignalingState
    var auth: Option<AuthProvider>
    var identity: ClientIdentity
    var server: ServerContext
    var tasks: Option<seq<Task>>
    var task: Option<Task>
    var taskTypes: Option<seq<string>>

    function Get(): Common
      reads this
    {
      Common(phase, permanent, auth, identity, server, tasks, task, taskTypes)
    }

    constructor (permanent: KeyPair, auth: AuthProvider, serverKey: Option<PublicKey>, tasks: seq<Task>, d: Draw)
      ensures Get() == Common(ServerHandshake, permanent, Some(auth), Unknown,
                              ServerContext(ServerNew, serverKey, None, FreshLink(d)), Some(tasks), None, None)
    {
      this.permanent := permanent;
      this.phase := ServerHandshake;
      this.auth := Some(auth);
      this.identity := Unknown;
      this.server := ServerContext(ServerNew, serverKey, None, FreshLink(d));
      this.tasks := Some(tasks);
      this.task := None;
      this.taskTypes := None;
    }

    /** The one setter that checks its transition. */
    method SetSignalingState(to: SignalingState) returns (error: Option<SignalingError>)
      modifies this`phase
      ensures error.None? <==> old(phase) == to || MayTransition(old(phase), to)
      ensures if error.None? then SetPhase(old(Get()), to) == Success(Get())
              else SetPhase(old(Get()), to) == Failure(error.value) && phase == old(phase)
    {
      if phase == to { return None; }
      if !MayTransition(phase, to) { return Some(InvalidStateTransition); }
      phase := to;
      return None;
    }

    /** The setter itself checks nothing; its callers keep to the forward edges. */
    method SetServerState(to: ServerState)
      requires ServerEdge(server.handshake, to)
      modifies this`server
      ensures server == old(server).(handshake := to)
    {
      server := server.(handshake := to);
    }

    /** Increments our number towards the server and builds the nonce from it. */
    method NextServerNonce() returns (nonce: Option<Nonce>)
      modifies this`server
      ensures var n := NextNonce(old(server.link), AddressOf(identity), 0);
              if n.Some? then nonce == Some(n.value.0) && server == old(server).(link := n.value.1)
              else nonce.None? && server == old(server)
    {
      var csn := server.link.ourCsn.Increment();
      if csn.None? { return None; }
      server := server.(link := server.link.(ourCsn := csn.value));
      return Some(Nonce(server.link.ourCookie, AddressOf(identity), 0, csn.value));
    }

    method SendDropResponder(id: Address, reason: U16) returns (out: Outcome)
      modifies this`server
      ensures Step(Get(), out) == SendDrop(old(Get()), id, reason)
    {
      var nonce := NextServerNonce();
      if nonce.None? { return Err(CsnOverflow); }
      if server.sessionKey.None? { return Err(Crash(ServerSessionKeyNotSet)); }
      return Ok([Reply(Seal(Encode(DropResponder(id, Some(reason))), nonce.value, permanent,
                            server.sessionKey.value))]);
    }

    method HandleServerHello(responder: bool, key: PublicKey) returns (out: Outcome)
      requires server.handshake.ServerNew?
      modifies this`server
      ensures Step(Get(), out) == Signaling.HandleServerHello(old(Get()), responder, key)
    {
      hide Csn.Increment;
      var actions: seq<Action> := [];
      if server.sessionKey.Some? { return Err(Protocol); }
      server := server.(sessionKey := Some(key));
      if responder {
        var hello := NextServerNonce();
        if hello.None? { return Err(CsnOverflow); }
        actions := [Reply(ClearBox(ClientHello(permanent.Public()), hello.value))];
      }
      if server.link.theirCookie.None? { return Err(Crash(ServerCookieUnwrap)); }
      var m := ClientAuth(server.link.theirCookie.value, server.permanentKey);
      var nonce := NextServerNonce();
      if nonce.None? { return Err(CsnOverflow); }
      if server.sessionKey.None? { return Err(Crash(ServerSessionKeyNotSet)); }
      actions := actions + [Reply(Seal(Encode(m), nonce.value, permanent, server.sessionKey.value))];
      SetServerState(ClientInfoSent);
      return Ok(actions);
    }

    /** The server handshake is over: the server context is done and the peer handshake begins. */
    method FinishServerHandshake(actions: seq<Action>) returns (out: Outcome)
      requires server.handshake.ClientInfoSent?
      modifies this`server, this`phase
      ensures Step(Get(), out) == Signaling.FinishServerHandshake(old(Get()), actions)
    {
      SetServerState(ServerDone);
      var e := SetSignalingState(PeerHandshake);
      if e.Some? { return Err(e.value); }
      return Ok(actions);
    }

    /** Turns the pairs of a msgpack map into a string-keyed map and finds out what the message asks for. */
    method TaskMessageActions(v: Value) returns (out: Outcome)
      ensures out == TaskActions(v, taskTypes)
    {
      if !v.Map? { return Err(InvalidMessage); }
      var fields: map<string, Value> := map[];
      for k := 0 to |v.pairs|
        invariant FieldsOf(v.pairs[..k]) == Some(fields)
      {
        var (key, value) := v.pairs[k];
        assert v.pairs[..k + 1][..k] == v.pairs[..k];
        if !key.Str? {
          NonStringKeyFails(v.pairs, k);
          return Err(InvalidMessage);
        }
        fields := fields[key.s := value];
      }
      assert v.pairs[..|v.pairs|] == v.pairs;
      if "type" !in fields || !fields["type"].Str? { return Err(InvalidMessage); }
      var kind := fields["type"].s;
      if kind == "application" {
        if "data" !in fields { return Err(InvalidMessage); }
        return Ok([TaskAction(Application(fields["data"]))]);
      }
      if kind == "close" {
        if "reason" !in fields || !fields["reason"].Int? { return Err(InvalidMessage); }
        var reason := fields["reason"].n;
        if reason < 0 || reason > 0xffff { return Err(InvalidMessage); }
        return Ok([TaskAction(CloseMessage(CloseCodeFromNumber(reason)))]);
      }
      if taskTypes.None? { return Err(Crash(TaskTypesNotSet)); }
      if kind in taskTypes.value { return Ok([TaskAction(ValueMessage(fields))]); }
      return Ok([]);
    }
  }

  /** One key that is not a string spoils the whole map, wherever it stands. */
  lemma {:induction false} NonStringKeyFails(pairs: seq<(Value, Value)>, k: nat)
    requires k < |pairs| && !pairs[k].0.Str?
    ensures FieldsOf(pairs).None?
    decreases |pairs|
  {
    var front := pairs[..|pairs| - 1];
    if k < |front| { NonStringKeyFails(front, k); }
  }
}
