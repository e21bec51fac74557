/** Whole runs of a responder. */
module ResponderRuns {
  import opened Basics
  import opened CombinedSequence
  import opened Messages
  import opened Boxes
  import opened Negotiation
  import opened Contexts
  import opened Signaling
  import opened ResponderProtocol
  import opened ResponderInvariants
  import opened RunShape
  import opened Progression
  import opened Ledger

  ghost function Links(s: Responder): set<Link> {
    {s.common.server.link, s.initiator.link}
  }

  /** Handlers leave alone what validation recorded about the peers; a replaced context starts empty. */
  ghost predicate Quiet(s: Responder, t: Responder) {
    && t.common.server.link == s.common.server.link.(ourCsn := t.common.server.link.ourCsn)
    && (if t.draws == s.draws then t.initiator.link == s.initiator.link.(ourCsn := t.initiator.link.ourCsn)
        else t.initiator.link.theirCsn.None? && t.initiator.link.theirCookie.None?)
  }

  lemma HandlersAreQuiet(s: Responder, tape: Tape, b: ByteBox, choice: Choice)
    ensures Quiet(s, HandleValid(s, b, tape, choice).state)
  {
    hide HandleServerMessage;
    hide HandleHandshakePeer;
    hide TaskActions;
    if b.nonce.source == 0 {
      var m := DecodeServer(s.common, b);
      if m.Success? { ServerIsQuiet(s, tape, m.value, b.nonce); }
    } else {
      PeerIsQuiet(s, b, choice);
    }
  }

  lemma ServerIsQuiet(s: Responder, tape: Tape, m: Message, nonce: Nonce)
    ensures Quiet(s, HandleServerMessage(s, m, nonce, tape).state)
  {
    hide CheckServerAuth;
    hide Csn.Increment;
  }

  lemma PeerIsQuiet(s: Responder, b: ByteBox, choice: Choice)
    ensures Quiet(s, HandleHandshakePeer(s, b, choice).state)
  {
    hide OpenMessage;
    hide Csn.Increment;
    hide ResponderAuth;
    hide ChoicePasses;
  }

  /** The nonce a step accepts, if any. */
  ghost function HearingOf(s: Responder, input: Input): Option<Hearing> {
    if input.Receive? && ValidateNonce(s, input.box.nonce).1.Accept? && PeerLink(s, input.box.nonce.source).Some?
    then Some(Hearing(PeerLink(s, input.box.nonce.source).value.ourCookie, input.box.nonce))
    else None
  }

  /** What a validated message changes is exactly the link of its sender. */
  lemma ValidationOnLinks(s: Responder, n: Nonce)
    ensures var (t, v) := ValidateNonce(s, n);
            && (v.Accept? ==>
                  && PeerLink(s, n.source).Some?
                  && Admit(PeerLink(s, n.source).value, n).1
                  && t.draws == s.draws
                  && t.common.server.link
                     == (if n.source == 0 then Admit(s.common.server.link, n).0 else s.common.server.link)
                  && t.initiator.link == (if n.source == 1 then Admit(s.initiator.link, n).0 else s.initiator.link))
            && (v.DropMsg? ==> Links(t) == Links(s))
  {
  }

  /** One step moves the two links as the ledger demands. */
  lemma LinksMove(s: Responder, tape: Tape, input: Input, server: Cookie)
    requires Valid(s, tape) && server == s.common.server.link.ourCookie
    requires DistinctCookies(tape, server, Next(s, tape, input).state.draws)
    requires Next(s, tape, input).out.Ok?
    ensures LinksEvolve(Links(s), Links(Next(s, tape, input).state), tape, server, s.draws, HearingOf(s, input))
  {
    hide Admit;
    hide HandleValid;
    hide ValidateNonce;
    hide Next;
    hide Emits;
    hide Authored;
    hide SpendsToken;
    NextFollows(s, tape, input);
    var u := Next(s, tape, input).state;
    var h := HearingOf(s, input);
    if input.Receive? {
      var n := input.box.nonce;
      var (t, v) := ValidateNonce(s, n);
      ValidationOnLinks(s, n);
      if v.Accept? {
        AdmitHears(PeerLink(s, n.source).value, n);
        HandlersAreQuiet(t, tape, input.box, input.choice);
        assert u == HandleValid(t, input.box, tape, input.choice).state by { ReceiveUnfolds(s, tape, input); }
      } else {
        ReceiveUnfolds(s, tape, input);
      }
    } else {
      SendUnfolds(s, tape, input);
    }
    assert Evolves(s.common.server.link, u.common.server.link, h);
    if u.draws == s.draws {
      assert Evolves(s.initiator.link, u.initiator.link, h);
    } else {
      assert Unused(u.initiator.link, tape, server, s.draws);
    }
  }

  lemma ReceiveUnfolds(s: Responder, tape: Tape, input: Input)
    requires input.Receive?
    ensures var (t, v) := ValidateNonce(s, input.box.nonce);
            && (v.Accept? ==> Next(s, tape, input) == HandleValid(t, input.box, tape, input.choice))
            && (v.DropMsg? ==> Next(s, tape, input).state == t)
            && (Next(s, tape, input).out.Ok? ==> v.Accept? || v.DropMsg?)
  {
  }

  lemma SendUnfolds(s: Responder, tape: Tape, input: Input)
    requires !input.Receive?
    ensures Next(s, tape, input).state
            == s.(initiator := s.initiator.(link := Next(s, tape, input).state.initiator.link))
    ensures Quiet(s, Next(s, tape, input).state)
  {
  }

  /** One step hands out nonces as the ledger demands. */
  lemma NoncesIssue(s: Responder, tape: Tape, input: Input, server: Cookie)
    requires Valid(s, tape) && server == s.common.server.link.ourCookie
    requires DistinctCookies(tape, server, Next(s, tape, input).state.draws)
    requires Next(s, tape, input).out.Ok?
    ensures var h := Next(s, tape, input);
            Issues(Links(s), Links(h.state), tape, server, s.draws, h.state.draws, h.out.actions)
  {
    hide Next;
    hide Authored;
    hide SpendsToken;
    hide CommonValid;
    NextFollows(s, tape, input);
    var h := Next(s, tape, input);
    var t, a := h.state, h.out.actions;
    assert Known(tape(t.draws - 1).cookie, tape, server, t.draws);
    if s.draws == t.draws {
      assert Known(tape(s.draws - 1).cookie, tape, server, s.draws);
    } else {
      assert !Known(tape(t.draws - 1).cookie, tape, server, s.draws);
    }
    forall i | 0 <= i < |a| && a[i].Reply?
      ensures Known(a[i].box.nonce.cookie, tape, server, t.draws)
      ensures !Known(a[i].box.nonce.cookie, tape, server, s.draws)
              || exists l :: l in Links(s) && l.ourCookie == a[i].box.nonce.cookie
                             && l.ourCsn.Number() < a[i].box.nonce.csn.Number()
    {
      assert Issued(s, t, a[i].box.nonce);
      assert s.common.server.link in Links(s) && s.initiator.link in Links(s);
    }
  }

  // ---------- Runs ----------

  /**
   A run so far: where it stands, what it asked the driver to do and what it accepted. It ends with the first error.
   */
  datatype History = History(state: Responder, log: seq<Action>, heard: seq<Hearing>, live: bool)

  ghost function Extend(h: History, tape: Tape, input: Input): History {
    var n := Next(h.state, tape, input);
    History(n.state, if n.out.Ok? then h.log + n.out.actions else h.log,
            h.heard + Listed(HearingOf(h.state, input)), n.out.Ok?)
  }

  ghost function Run(h: History, tape: Tape, inputs: seq<Input>): History
    decreases |inputs|
  {
    if inputs == [] || !h.live then h else Run(Extend(h, tape, inputs[0]), tape, inputs[1..])
  }

  lemma PeerCounts(s: Responder, b: ByteBox, choice: Choice)
    ensures HandleHandshakePeer(s, b, choice).state.draws == s.draws
    ensures HandleTaskPeer(s, b).state.draws == s.draws
  {
    hide Csn.Increment;
    hide DecodePeer;
    hide TaskActions;
  }

  lemma ServerCounts(s: Responder, m: Message, nonce: Nonce, tape: Tape)
    ensures s.draws <= HandleServerMessage(s, m, nonce, tape).state.draws <= s.draws + 1
  {
    hide Csn.Increment;
    hide CheckServerAuth;
  }

  lemma ValidationCounts(s: Responder, n: Nonce)
    ensures ValidateNonce(s, n).0.draws == s.draws
  {
  }

  /** No step, not even one that fails, takes back a draw or takes more than one. */
  lemma StepCounts(s: Responder, tape: Tape, input: Input)
    ensures s.draws <= Next(s, tape, input).state.draws <= s.draws + 1
  {
    hide ValidateNonce;
    hide HandleHandshakePeer;
    hide HandleTaskPeer;
    hide HandleServerMessage;
    hide Csn.Increment;
    if input.Receive? {
      var b := input.box;
      ValidationCounts(s, b.nonce);
      var t := ValidateNonce(s, b.nonce).0;
      PeerCounts(t, b, input.choice);
      var d := DecodeServer(t.common, b);
      if d.Success? { ServerCounts(t, d.value, b.nonce, tape); }
    }
  }

  lemma {:induction false} RunCounts(h: History, tape: Tape, inputs: seq<Input>)
    ensures h.state.draws <= Run(h, tape, inputs).state.draws <= h.state.draws + |inputs|
    decreases |inputs|
  {
    hide Next;
    if inputs != [] && h.live {
      StepCounts(h.state, tape, inputs[0]);
      RunCounts(Extend(h, tape, inputs[0]), tape, inputs[1..]);
    }
  }

  /** What holds along every run. */
  ghost predicate RunValid(h: History, tape: Tape) {
    && Shape(ServerHandshake, h.log).Some?
    && AtMostOneToken(h.log)
    && (h.live ==>
          && Valid(h.state, tape)
          && Shape(ServerHandshake, h.log) == Some(h.state.common.phase)
          && (SpendableToken(h.state.common) ==> NoTokens(h.log)))
  }

  /** What holds along every run whose cookies are distinct. */
  ghost predicate LedgerValid(h: History, tape: Tape, server: Cookie) {
    && Increasing(h.log)
    && NoReplay(h.heard)
    && (h.live ==>
          && h.state.common.server.link.ourCookie == server
          && Balanced(Links(h.state), tape, server, h.state.draws, h.log, h.heard))
  }

  ghost predicate NoTokens(log: seq<Action>) {
    forall i :: 0 <= i < |log| ==> !IsToken(log[i])
  }

  /** A token once sent is never sent again. */
  lemma TokensAppend(log: seq<Action>, s: Responder, t: Responder, actions: seq<Action>)
    requires AtMostOneToken(log) && SpendsToken(s, t, actions)
    requires SpendableToken(s.common) ==> NoTokens(log)
    ensures AtMostOneToken(log + actions)
    ensures SpendableToken(s.common) && SpendableToken(t.common) ==> NoTokens(log + actions)
  {
  }

  /** The accepted nonce was admitted by a link the responder holds. */
  lemma HearingIsAdmitted(s: Responder, tape: Tape, input: Input, server: Cookie)
    requires Valid(s, tape) && server == s.common.server.link.ourCookie && HearingOf(s, input).Some?
    ensures Admits(Links(s), HearingOf(s, input).value)
    ensures Known(HearingOf(s, input).value.context, tape, server, s.draws)
  {
  }

  lemma ExtendKeeps(h: History, tape: Tape, input: Input)
    requires RunValid(h, tape) && h.live
    ensures RunValid(Extend(h, tape, input), tape)
  {
    hide Next;
    hide HearingOf;
    hide Valid;
    var n := Next(h.state, tape, input);
    if n.out.Ok? {
      NextFollows(h.state, tape, input);
      ShapeConcat(ServerHandshake, h.log, n.out.actions);
      TokensAppend(h.log, h.state, n.state, n.out.actions);
    }
  }

  lemma {:induction false} RunKeeps(h: History, tape: Tape, inputs: seq<Input>)
    requires RunValid(h, tape)
    ensures RunValid(Run(h, tape, inputs), tape)
    decreases |inputs|
  {
    if inputs != [] && h.live {
      ExtendKeeps(h, tape, inputs[0]);
      RunKeeps(Extend(h, tape, inputs[0]), tape, inputs[1..]);
    }
  }

  lemma ExtendKeepsLedger(h: History, tape: Tape, input: Input, server: Cookie)
    requires RunValid(h, tape) && LedgerValid(h, tape, server) && h.live
    requires DistinctCookies(tape, server, Extend(h, tape, input).state.draws)
    ensures LedgerValid(Extend(h, tape, input), tape, server)
  {
    hide Next;
    hide HearingOf;
    hide Valid;
    var n := Next(h.state, tape, input);
    var hearing := HearingOf(h.state, input);
    if hearing.Some? {
      HearingIsAdmitted(h.state, tape, input, server);
      HearingKeepsNoReplay(Links(h.state), tape, server, h.state.draws, h.log, h.heard, hearing.value);
    } else {
      assert h.heard + Listed(hearing) == h.heard;
    }
    if n.out.Ok? {
      NextFollows(h.state, tape, input);
      LinksMove(h.state, tape, input, server);
      NoncesIssue(h.state, tape, input, server);
      StepBalances(Links(h.state), Links(n.state), tape, server, h.state.draws, n.state.draws, h.log, h.heard,
                   n.out.actions, hearing);
    }
  }

  lemma {:induction false} RunKeepsLedger(h: History, tape: Tape, inputs: seq<Input>, server: Cookie)
    requires RunValid(h, tape) && LedgerValid(h, tape, server)
    requires DistinctCookies(tape, server, Run(h, tape, inputs).state.draws)
    ensures LedgerValid(Run(h, tape, inputs), tape, server)
    decreases |inputs|
  {
    hide RunValid;
    hide LedgerValid;
    hide Extend;
    if inputs != [] && h.live {
      ExtendKeeps(h, tape, inputs[0]);
      RunCounts(Extend(h, tape, inputs[0]), tape, inputs[1..]);
      ExtendKeepsLedger(h, tape, inputs[0], server);
      RunKeepsLedger(Extend(h, tape, inputs[0]), tape, inputs[1..], server);
    }
  }

  /** A freshly created responder that has not received anything. */
  ghost function Start(s: Responder): History {
    History(s, [], [], true)
  }

  ghost predicate Created(s: Responder, tape: Tape) {
    exists permanent, initiatorKey, token, serverKey, tasks, d ::
      s == Create(permanent, initiatorKey, token, serverKey, tasks, d, tape)
  }

  lemma StartIsValid(s: Responder, tape: Tape)
    requires Created(s, tape)
    ensures RunValid(Start(s), tape) && LedgerValid(Start(s), tape, s.common.server.link.ourCookie)
  {
  }

  /** The state invariant holds after every run that has not ended in an error. */
  lemma RunsStayValid(s: Responder, tape: Tape, inputs: seq<Input>)
    requires Created(s, tape)
    ensures var h := Run(Start(s), tape, inputs);
            h.live ==> Valid(h.state, tape)
  {
    StartIsValid(s, tape);
    RunKeeps(Start(s), tape, inputs);
  }

  /** Over every run: no outgoing nonce is used twice and no incoming nonce is accepted twice. */
  lemma NoncesAreFresh(s: Responder, tape: Tape, inputs: seq<Input>)
    requires Created(s, tape)
    requires DistinctCookies(tape, s.common.server.link.ourCookie, Run(Start(s), tape, inputs).state.draws)
    ensures var h := Run(Start(s), tape, inputs);
            Increasing(h.log) && NoReuse(h.log) && NoReplay(h.heard)
  {
    StartIsValid(s, tape);
    RunKeepsLedger(Start(s), tape, inputs, s.common.server.link.ourCookie);
    IncreasingMeansNoReuse(Run(Start(s), tape, inputs).log);
  }

  /** Over every run: what the driver is told is in the order it relies on, and the phase follows from it. */
  lemma RunsAreShaped(s: Responder, tape: Tape, inputs: seq<Input>)
    requires Created(s, tape)
    ensures var h := Run(Start(s), tape, inputs);
            && Promises(h.log)
            && (h.live ==> Shape(ServerHandshake, h.log) == Some(h.state.common.phase))
  {
    StartIsValid(s, tape);
    RunKeeps(Start(s), tape, inputs);
    ShapeKeepsPromises(Run(Start(s), tape, inputs).log);
  }

  /** Over every run: the token is sent at most once, and never by a responder created with a trusted key. */
  lemma TokenIsSingleUse(s: Responder, tape: Tape, inputs: seq<Input>)
    requires Created(s, tape)
    ensures var h := Run(Start(s), tape, inputs);
            && AtMostOneToken(h.log)
            && (Trusted(s.common) ==> NoTokens(h.log))
  {
    StartIsValid(s, tape);
    RunKeeps(Start(s), tape, inputs);
    if Trusted(s.common) { TrustedRunsSendNoToken(Start(s), tape, inputs); }
  }

  lemma TrustedStepSendsNoToken(s: Responder, tape: Tape, input: Input)
    requires Valid(s, tape) && Trusted(s.common) && Next(s, tape, input).out.Ok?
    ensures var n := Next(s, tape, input);
            && Valid(n.state, tape)
            && Trusted(n.state.common)
            && NoTokens(n.out.actions)
  {
    hide Next;
    NextFollows(s, tape, input);
  }

  lemma {:induction false} TrustedRunsSendNoToken(h: History, tape: Tape, inputs: seq<Input>)
    requires h.live ==> Valid(h.state, tape) && Trusted(h.state.common)
    requires NoTokens(h.log)
    ensures NoTokens(Run(h, tape, inputs).log)
    decreases |inputs|
  {
    hide Next;
    hide HearingOf;
    hide Valid;
    if inputs != [] && h.live {
      if Next(h.state, tape, inputs[0]).out.Ok? { TrustedStepSendsNoToken(h.state, tape, inputs[0]); }
      TrustedRunsSendNoToken(Extend(h, tape, inputs[0]), tape, inputs[1..]);
    }
  }

  /**
   After every run that has not failed: the identity is a responder's, the cookie of the server is known before it is
   needed, and the checked phase setter succeeds wherever the code calls it.
   */
  lemma DeadBranches(s: Responder, tape: Tape, inputs: seq<Input>)
    requires Created(s, tape)
    ensures var h := Run(Start(s), tape, inputs);
            h.live ==>
              && !h.state.common.identity.IsInitiator?
              && (h.state.common.identity.IsResponder? ==> 2 <= h.state.common.identity.address)
              && (h.state.common.server.sessionKey.Some? ==> h.state.common.server.link.theirCookie.Some?)
              && (h.state.common.server.handshake.ClientInfoSent? ==> SetPhase(h.state.common, PeerHandshake).Success?)
              && (h.state.common.server.handshake.ServerDone? ==> SetPhase(h.state.common, TaskPhase).Success?)
  {
    hide Run;
    RunsStayValid(s, tape, inputs);
  }
}
