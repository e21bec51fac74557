/** The loops that carry out the actions of one step, during the handshake and while a task runs. */
module Drivers {
  import opened Basics
  import opened Messages
  import opened Boxes
  import opened Contexts
  import opened Signaling
  import opened RunShape
  import I = InitiatorProtocol
  import II = InitiatorInvariants
  import R = ResponderProtocol
  import RI = ResponderInvariants

  /** What the application hears about. */
  datatype UserEvent = PeerHandshakeDone | Signaled(event: Event)

  /** What is left to do after the actions of a handshake step, unless one of them has no business there. */
  datatype HandshakeRound =
    | HandshakeRound(messages: seq<ByteBox>, events: seq<UserEvent>, done: bool, failed: bool)
    | HandshakeCrash

  datatype TaskRound =
    | TaskRound(outgoing: seq<ByteBox>, incoming: seq<TaskMessage>, events: seq<UserEvent>, close: bool)
    | TaskCrash

  // ---------- What the actions ask for ----------

  function Replies(actions: seq<Action>): seq<ByteBox> {
    if actions == [] then []
    else
      var last := actions[|actions| - 1];
      Replies(actions[..|actions| - 1]) + if last.Reply? then [last.box] else []
  }

  function UserEvents(actions: seq<Action>): seq<UserEvent> {
    if actions == [] then []
    else
      var last := actions[|actions| - 1];
      UserEvents(actions[..|actions| - 1])
      + (if last.Notify? then [Signaled(last.event)] else if last.HandshakeDone? then [PeerHandshakeDone] else [])
  }

  function TaskMessages(actions: seq<Action>): seq<TaskMessage> {
    if actions == [] then []
    else
      var last := actions[|actions| - 1];
      TaskMessages(actions[..|actions| - 1]) + if last.TaskAction? then [last.message] else []
  }

  predicate IsClose(a: Action) {
    a.TaskAction? && a.message.CloseMessage?
  }

  // ---------- The loops ----------

  /** The action loop of the handshake: it fails exactly on a task message and otherwise leaves nothing undone. */
  method DrainHandshake(actions: seq<Action>) returns (r: HandshakeRound)
    ensures r.HandshakeCrash? <==> exists i :: 0 <= i < |actions| && actions[i].TaskAction?
    ensures r.HandshakeRound? ==>
              && r.messages == Replies(actions)
              && r.events == UserEvents(actions)
              && (r.done <==> HandshakeDone in actions)
              && (r.failed <==> HandshakeError in actions)
  {
    var messages: seq<ByteBox>, events: seq<UserEvent>, done, failed := [], [], false, false;
    for k := 0 to |actions|
      invariant forall i :: 0 <= i < k ==> !actions[i].TaskAction?
      invariant messages == Replies(actions[..k])
      invariant events == UserEvents(actions[..k])
      invariant done <==> HandshakeDone in actions[..k]
      invariant failed <==> HandshakeError in actions[..k]
    {
      assert actions[..k + 1][..k] == actions[..k];
      match actions[k] {
        case Reply(box) => messages := messages + [box];
        case HandshakeDone =>
          done := true;
          events := events + [PeerHandshakeDone];
        case TaskAction(_) => return HandshakeCrash;
        case Notify(e) => events := events + [Signaled(e)];
        case HandshakeError => failed := true;
      }
    }
    assert actions[..|actions|] == actions;
    return HandshakeRound(messages, events, done, failed);
  }

  /** The action loop of the task phase: it fails exactly on a handshake report. */
  method DrainTask(actions: seq<Action>) returns (r: TaskRound)
    ensures r.TaskCrash? <==> HandshakeDone in actions || HandshakeError in actions
    ensures r.TaskRound? ==>
              && r.outgoing == Replies(actions)
              && r.incoming == TaskMessages(actions)
              && r.events == UserEvents(actions)
              && (r.close <==> exists i :: 0 <= i < |actions| && IsClose(actions[i]))
  {
    var outgoing: seq<ByteBox>, incoming: seq<TaskMessage>, events: seq<UserEvent>, close := [], [], [], false;
    for k := 0 to |actions|
      invariant HandshakeDone !in actions[..k] && HandshakeError !in actions[..k]
      invariant outgoing == Replies(actions[..k])
      invariant incoming == TaskMessages(actions[..k])
      invariant events == UserEvents(actions[..k])
      invariant close <==> exists i :: 0 <= i < k && IsClose(actions[i])
    {
      assert actions[..k + 1][..k] == actions[..k];
      match actions[k] {
        case Reply(box) => outgoing := outgoing + [box];
        case TaskAction(m) =>
          if m.CloseMessage? { close := true; }
          incoming := incoming + [m];
        case Notify(e) => events := events + [Signaled(e)];
        case HandshakeDone => return TaskCrash;
        case HandshakeError => return TaskCrash;
      }
    }
    assert actions[..|actions|] == actions;
    return TaskRound(outgoing, incoming, events, close);
  }

  // ---------- The loops never fail ----------

  /** During the handshake, being done is the same as the phase having moved on. */
  lemma {:induction false} DoneIsTaskPhase(p: SignalingState, actions: seq<Action>)
    requires !p.TaskPhase? && Shape(p, actions).Some?
    ensures HandshakeDone in actions <==> Shape(p, actions).value.TaskPhase?
  {
    if actions != [] {
      var front := actions[..|actions| - 1];
      DoneIsTaskPhase(p, front);
      assert actions == front + [actions[|actions| - 1]];
    }
  }

  /** In the task phase nothing about the handshake is reported any more. */
  lemma {:induction false} TaskPhaseIsQuiet(actions: seq<Action>)
    requires Shape(TaskPhase, actions).Some?
    ensures Shape(TaskPhase, actions) == Some(TaskPhase)
    ensures HandshakeDone !in actions && HandshakeError !in actions
  {
    if actions != [] {
      var front := actions[..|actions| - 1];
      TaskPhaseIsQuiet(front);
      assert actions == front + [actions[|actions| - 1]];
    }
  }

  ghost predicate NoTaskMessage(actions: seq<Action>) {
    forall i :: 0 <= i < |actions| ==> !actions[i].TaskAction?
  }

  lemma {:induction false} DropsAreReplies(c: Common, ids: seq<Address>)
    ensures DropAll(c, ids).out.Ok? ==> NoTaskMessage(DropAll(c, ids).out.actions)
  {
    hide NextNonce;
    if ids != [] { DropsAreReplies(c, ids[..|ids| - 1]); }
  }

  lemma {:induction false} RegisteringReplies(s: I.Initiator, order: seq<Address>, tape: Tape)
    ensures I.RegisterAll(s, order, tape).out.Ok? ==> NoTaskMessage(I.RegisterAll(s, order, tape).out.actions)
    decreases |order|
  {
    hide NextNonce;
    hide I.OldestBelow;
    if order != [] { RegisteringReplies(s, order[..|order| - 1], tape); }
  }

  lemma InitiatorServerStep(s: I.Initiator, m: Message, nonce: Nonce, tape: Tape, choice: Choice)
    ensures var h := I.HandleServerMessage(s, m, nonce, tape, choice);
            h.out.Ok? ==> NoTaskMessage(h.out.actions)
  {
    hide NextNonce;
    hide I.RegisterAll;
    hide I.OldestBelow;
    hide CheckServerAuth;
    if m.ServerAuth? && m.responders.Some? {
      RegisteringReplies(s, choice.order(set a | a in m.responders.value), tape);
    }
  }

  lemma InitiatorPeerStep(s: I.Initiator, b: ByteBox, choice: Choice)
    ensures var h := I.HandleHandshakePeer(s, b, choice);
            h.out.Ok? ==> NoTaskMessage(h.out.actions)
  {
    hide NextNonce;
    hide I.HandleAuth;
    var d := I.DecodePeer(s, b);
    if d.Success? && d.value.AuthMsg? && b.nonce.source in s.responders {
      InitiatorAuthStep(s, d.value.auth, b.nonce.source, choice);
    }
  }

  lemma InitiatorAuthStep(s: I.Initiator, auth: Auth, source: Address, choice: Choice)
    requires source in s.responders
    ensures var h := I.HandleAuth(s, auth, source, choice);
            h.out.Ok? ==> NoTaskMessage(h.out.actions)
  {
    hide SendSession;
    hide DropAll;
    var c := s.common.(tasks := None);
    DropsAreReplies(c, choice.order((s.responders - {source}).Keys));
  }

  /**
   Whatever a valid initiator returns, the loop of its phase carries it out: task messages never appear during the
   handshake, handshake reports never afterwards, and the handshake loop ends exactly when the task phase begins.
   */
  lemma InitiatorActionsFit(s: I.Initiator, tape: Tape, input: Input)
    requires II.Valid(s, tape) && I.Next(s, tape, input).out.Ok?
    ensures var h := I.Next(s, tape, input);
            if s.common.phase.TaskPhase? then HandshakeDone !in h.out.actions && HandshakeError !in h.out.actions
            else NoTaskMessage(h.out.actions) && (HandshakeDone in h.out.actions <==> h.state.common.phase.TaskPhase?)
  {
    hide I.ValidateNonce;
    hide I.HandleServerMessage;
    hide I.HandleHandshakePeer;
    hide II.Valid;
    II.NextFollows(s, tape, input);
    var h := I.Next(s, tape, input);
    if s.common.phase.TaskPhase? {
      TaskPhaseIsQuiet(h.out.actions);
    } else {
      DoneIsTaskPhase(s.common.phase, h.out.actions);
      if input.Receive? {
        II.ValidationHears(s, tape, input.box.nonce);
        var (t, v) := I.ValidateNonce(s, input.box.nonce);
        var m := DecodeServer(t.common, input.box);
        if m.Success? { InitiatorServerStep(t, m.value, input.box.nonce, tape, input.choice); }
        InitiatorPeerStep(t, input.box, input.choice);
      }
    }
  }

  lemma ResponderServerStep(s: R.Responder, m: Message, nonce: Nonce, tape: Tape)
    ensures var h := R.HandleServerMessage(s, m, nonce, tape);
            h.out.Ok? ==> NoTaskMessage(h.out.actions)
  {
    hide NextNonce;
    hide CheckServerAuth;
  }

  lemma ResponderPeerStep(s: R.Responder, b: ByteBox, choice: Choice)
    ensures var h := R.HandleHandshakePeer(s, b, choice);
            h.out.Ok? ==> NoTaskMessage(h.out.actions)
  {
  }

  /** The same for the responder. */
  lemma ResponderActionsFit(s: R.Responder, tape: Tape, input: Input)
    requires RI.Valid(s, tape) && R.Next(s, tape, input).out.Ok?
    ensures var h := R.Next(s, tape, input);
            if s.common.phase.TaskPhase? then HandshakeDone !in h.out.actions && HandshakeError !in h.out.actions
            else NoTaskMessage(h.out.actions) && (HandshakeDone in h.out.actions <==> h.state.common.phase.TaskPhase?)
  {
    hide R.ValidateNonce;
    hide R.HandleServerMessage;
    hide R.HandleHandshakePeer;
    hide RI.Valid;
    RI.NextFollows(s, tape, input);
    var h := R.Next(s, tape, input);
    if s.common.phase.TaskPhase? {
      TaskPhaseIsQuiet(h.out.actions);
    } else {
      DoneIsTaskPhase(s.common.phase, h.out.actions);
      if input.Receive? {
        RI.ValidationHears(s, tape, input.box.nonce);
        var (t, v) := R.ValidateNonce(s, input.box.nonce);
        var m := DecodeServer(t.common, input.box);
        if m.Success? { ResponderServerStep(t, m.value, input.box.nonce, tape); }
        ResponderPeerStep(t, input.box, input.choice);
      }
    }
  }
}
