/** The shape of a run: which actions a client may hand to its driver, and in which phase. */
module RunShape {
  import opened Basics
  import opened Contexts

  /** The phase after an action, or `None` if the action has no business in that phase. */
  function Advance(p: SignalingState, a: Action): Option<SignalingState> {
    match a
    case Reply(_) => Some(p)
    case Notify(ServerHandshakeDone(_)) => if p.ServerHandshake? then Some(PeerHandshake) else None
    case Notify(PeerDisconnected(_)) => if p.ServerHandshake? then None else Some(p)
    case HandshakeDone => if p.PeerHandshake? then Some(TaskPhase) else None
    case HandshakeError => if p.PeerHandshake? then Some(p) else None
    case TaskAction(_) => if p.TaskPhase? then Some(p) else None
  }

  function Shape(p: SignalingState, log: seq<Action>): Option<SignalingState> {
    if log == [] then Some(p)
    else
      var q := Shape(p, log[..|log| - 1]);
      if q.None? then None else Advance(q.value, log[|log| - 1])
  }

  lemma {:induction false} ShapeConcat(p: SignalingState, a: seq<Action>, b: seq<Action>)
    requires Shape(p, a).Some?
    ensures Shape(p, a + b) == Shape(Shape(p, a).value, b)
  {
    if b == [] {
      assert a + b == a;
    } else {
      ShapeConcat(p, a, b[..|b| - 1]);
      assert (a + b)[..|a + b| - 1] == a + b[..|b| - 1];
    }
  }

  /** Replies fit into every phase and do not change it. */
  lemma {:induction false} RepliesKeepPhase(p: SignalingState, log: seq<Action>)
    requires forall i :: 0 <= i < |log| ==> log[i].Reply?
    ensures Shape(p, log) == Some(p)
  {
    if log != [] { RepliesKeepPhase(p, log[..|log| - 1]); }
  }

  /** Replies followed by the report that the server handshake is done. */
  lemma NotifyLast(p: SignalingState, log: seq<Action>)
    requires p.ServerHandshake? && log != []
    requires IsServerDone(log[|log| - 1])
    requires forall i :: 0 <= i < |log| - 1 ==> log[i].Reply?
    ensures Shape(p, log) == Some(PeerHandshake)
  {
    RepliesKeepPhase(p, log[..|log| - 1]);
  }

  lemma ShapeOne(p: SignalingState, a: Action)
    ensures Shape(p, [a]) == Advance(p, a)
  {
  }

  function Rank(p: SignalingState): nat {
    if p.ServerHandshake? then 0 else if p.PeerHandshake? then 1 else 2
  }

  /** The phase reached by a prefix of a well-shaped log never lies behind that of a shorter prefix. */
  lemma {:induction false} PrefixShapes(p: SignalingState, log: seq<Action>, i: nat, j: nat)
    requires i <= j <= |log|
    requires Shape(p, log[..j]).Some?
    ensures Shape(p, log[..i]).Some?
    ensures Rank(p) <= Rank(Shape(p, log[..i]).value) <= Rank(Shape(p, log[..j]).value)
    decreases j
  {
    if i < j {
      assert log[..j][..j - 1] == log[..j - 1];
      PrefixShapes(p, log, i, j - 1);
    } else if j > 0 {
      assert log[..j][..j - 1] == log[..j - 1];
      PrefixShapes(p, log, i - 1, j - 1);
    }
  }

  /** What a well-shaped log promises the driver. */
  ghost predicate Promises(log: seq<Action>) {
    // each completion is reported at most once, server first
    && (forall i, j :: 0 <= i < j < |log| ==> !(log[i].HandshakeDone? && log[j].HandshakeDone?))
    && (forall i, j :: 0 <= i < j < |log| ==> !(IsServerDone(log[i]) && IsServerDone(log[j])))
    && (forall j :: 0 <= j < |log| && log[j].HandshakeDone? ==> exists i :: 0 <= i < j && IsServerDone(log[i]))
    // task messages come only after the handshake is done
    && (forall j :: 0 <= j < |log| && log[j].TaskAction? ==> exists i :: 0 <= i < j && log[i].HandshakeDone?)
    // and nothing about the handshake comes after it
    && (forall i, j :: 0 <= i < j < |log| && log[i].HandshakeDone? ==>
        !log[j].HandshakeDone? && !log[j].HandshakeError?)
  }

  predicate IsServerDone(a: Action) {
    a.Notify? && a.event.ServerHandshakeDone?
  }

  /** A log that starts in the server handshake and reaches a later phase contains the action that led there. */
  lemma {:induction false} PhaseHasCause(log: seq<Action>)
    requires Shape(ServerHandshake, log).Some?
    ensures !Shape(ServerHandshake, log).value.ServerHandshake? ==> exists i :: 0 <= i < |log| && IsServerDone(log[i])
    ensures Shape(ServerHandshake, log).value.TaskPhase? ==> exists i :: 0 <= i < |log| && log[i].HandshakeDone?
  {
    if log != [] {
      var front := log[..|log| - 1];
      PhaseHasCause(front);
      var last := log[|log| - 1];
      if Shape(ServerHandshake, front).value == Shape(ServerHandshake, log).value {
        if exists i :: 0 <= i < |front| && IsServerDone(front[i]) {
          var i :| 0 <= i < |front| && IsServerDone(front[i]);
          assert IsServerDone(log[i]);
        }
        if exists i :: 0 <= i < |front| && front[i].HandshakeDone? {
          var i :| 0 <= i < |front| && front[i].HandshakeDone?;
          assert log[i].HandshakeDone?;
        }
      } else if last.HandshakeDone? {
        var i :| 0 <= i < |front| && IsServerDone(front[i]);
        assert IsServerDone(log[i]);
        assert log[|log| - 1].HandshakeDone?;
      } else {
        assert IsServerDone(log[|log| - 1]);
      }
    }
  }

  /** Shape is all the driver needs: a well-shaped log keeps every promise. */
  lemma ShapeKeepsPromises(log: seq<Action>)
    requires Shape(ServerHandshake, log).Some?
    ensures Promises(log)
  {
    assert log[..|log|] == log;
    forall i, j | 0 <= i < j < |log|
      ensures !(log[i].HandshakeDone? && log[j].HandshakeDone?)
      ensures !(IsServerDone(log[i]) && IsServerDone(log[j]))
      ensures log[i].HandshakeDone? ==> !log[j].HandshakeDone? && !log[j].HandshakeError?
    {
      StepInside(log, i);
      StepInside(log, j);
      PrefixShapes(ServerHandshake, log, i + 1, j);
    }
    forall j | 0 <= j < |log|
      ensures log[j].HandshakeDone? ==> exists i :: 0 <= i < j && IsServerDone(log[i])
      ensures log[j].TaskAction? ==> exists i :: 0 <= i < j && log[i].HandshakeDone?
    {
      StepInside(log, j);
      PhaseHasCause(log[..j]);
      if log[j].HandshakeDone? {
        var i :| 0 <= i < |log[..j]| && IsServerDone(log[..j][i]);
        assert IsServerDone(log[i]);
      }
      if log[j].TaskAction? {
        var i :| 0 <= i < |log[..j]| && log[..j][i].HandshakeDone?;
        assert log[i].HandshakeDone?;
      }
    }
  }

  /** Every action of a well-shaped log was allowed in the phase reached before it. */
  lemma StepInside(log: seq<Action>, j: nat)
    requires Shape(ServerHandshake, log).Some? && j < |log|
    ensures Shape(ServerHandshake, log[..j]).Some? && Shape(ServerHandshake, log[..j + 1]).Some?
    ensures Advance(Shape(ServerHandshake, log[..j]).value, log[j]) == Shape(ServerHandshake, log[..j + 1])
  {
    assert log[..|log|] == log;
    PrefixShapes(ServerHandshake, log, j + 1, |log|);
    assert log[..j + 1][..j] == log[..j];
    PrefixShapes(ServerHandshake, log, j, |log|);
  }
}
