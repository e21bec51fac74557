/**
 What the theorems on nonces ask of the random source: one tape gives it to all the runs of a client, and without it
 they fail.
 */
module Randomness {
  import opened Basics
  import opened CombinedSequence
  import opened Messages
  import opened Boxes
  import opened Tasks
  import opened Contexts
  import opened Progression
  import opened Ledger
  import opened Meeting
  import A = Agreement
  import I = InitiatorProtocol
  import IR = InitiatorRuns
  import Opening
  import P = Progress
  import R = ResponderProtocol
  import RI = ResponderInvariants
  import RR = ResponderRuns
  import Reachability
  import Wire

  // ---------- Distinct cookies can be had ----------

  /** A cookie that ends in the number of its draw and does not start like the server's. */
  function Numbered(server: Cookie, n: nat): Cookie {
    [if server[0] == 0 then 1 else 0, 0, 0, 0, 0, 0, 0, 0, 0, 0, 0, 0] + Wire.BytesOfU32(n % 0x1_0000_0000)
  }

  function NumberedTape(server: Cookie): Tape {
    (n: nat) => Draw(KeyPair(n), Numbered(server, n), 0)
  }

  lemma NumberedDiffer(server: Cookie, m: nat, n: nat)
    requires m < 0x1_0000_0000 && n < 0x1_0000_0000 && m != n
    ensures Numbered(server, m) != Numbered(server, n)
  {
    hide Numbered;
    hide Wire.BytesOfU32;
    hide Wire.ReadU32;
    Wire.U32RoundTrips(m, [0, 0, 0, 0]);
    Wire.U32RoundTrips(n, [0, 0, 0, 0]);
    NumberIsTail(server, m);
    NumberIsTail(server, n);
  }

  lemma NumberIsTail(server: Cookie, n: nat)
    requires n < 0x1_0000_0000
    ensures Numbered(server, n)[12..] == Wire.BytesOfU32(n)
  {
    hide Wire.BytesOfU32;
    assert n % 0x1_0000_0000 == n;
  }

  lemma NumberedAreDistinct(server: Cookie, draws: nat)
    requires draws <= 0x1_0000_0000
    ensures DistinctCookies(NumberedTape(server), server, draws)
  {
    forall m: nat, n: nat | m < draws && n < draws && m != n
      ensures NumberedTape(server)(m).cookie != NumberedTape(server)(n).cookie
    {
      NumberedDiffer(server, m, n);
    }
    forall n: nat | n < draws ensures NumberedTape(server)(n).cookie != server {
      assert Numbered(server, n)[0] != server[0];
    }
  }

  /** All runs of this initiator draw distinct cookies, so that none reuses a nonce or accepts one twice. */
  ghost predicate InitiatorIsFresh(s: I.Initiator, tape: Tape) {
    forall inputs :: var h := IR.Run(IR.Start(s), tape, inputs);
      && DistinctCookies(tape, s.common.server.link.ourCookie, h.state.counter)
      && NoReuse(h.log) && NoReplay(h.heard)
  }

  lemma InitiatorCanBeFresh(s: I.Initiator)
    requires IR.Created(s)
    ensures exists tape :: InitiatorIsFresh(s, tape)
  {
    hide IR.Run;
    hide NoReuse;
    hide NoReplay;
    hide Increasing;
    hide DistinctCookies;
    var server := s.common.server.link.ourCookie;
    var tape := NumberedTape(server);
    forall inputs
      ensures var h := IR.Run(IR.Start(s), tape, inputs);
              DistinctCookies(tape, server, h.state.counter) && NoReuse(h.log) && NoReplay(h.heard)
    {
      IR.RunCounts(IR.Start(s), tape, inputs);
      NumberedAreDistinct(server, IR.Run(IR.Start(s), tape, inputs).state.counter);
      IR.NoncesAreFresh(s, tape, inputs);
    }
    assert InitiatorIsFresh(s, tape);
  }

  /** So do all runs of this responder, for as long as 32 bits count its messages. */
  ghost predicate ResponderIsFresh(s: R.Responder, tape: Tape) {
    forall inputs :: |inputs| < 0xffff_ffff ==>
      var h := RR.Run(RR.Start(s), tape, inputs);
      && DistinctCookies(tape, s.common.server.link.ourCookie, h.state.draws)
      && NoReuse(h.log) && NoReplay(h.heard)
  }

  lemma ResponderCanBeFresh(permanent: KeyPair, initiatorKey: PublicKey, token: Option<AuthToken>,
                            serverKey: Option<PublicKey>, tasks: seq<Task>, d: Draw)
    ensures exists tape ::
              ResponderIsFresh(R.Create(permanent, initiatorKey, token, serverKey, tasks, d, tape), tape)
  {
    hide RR.Run;
    hide NoReuse;
    hide NoReplay;
    hide Increasing;
    hide DistinctCookies;
    var tape := NumberedTape(d.cookie);
    var s := R.Create(permanent, initiatorKey, token, serverKey, tasks, d, tape);
    assert RR.Created(s, tape);
    forall inputs: seq<Input> | |inputs| < 0xffff_ffff
      ensures var h := RR.Run(RR.Start(s), tape, inputs);
              DistinctCookies(tape, d.cookie, h.state.draws) && NoReuse(h.log) && NoReplay(h.heard)
    {
      RR.RunCounts(RR.Start(s), tape, inputs);
      NumberedAreDistinct(d.cookie, RR.Run(RR.Start(s), tape, inputs).state.draws);
      RR.NoncesAreFresh(s, tape, inputs);
    }
    assert ResponderIsFresh(s, tape);
  }

  // ---------- They are needed ----------

  /** A responder with a trusted key that has just started, in its first context. */
  ghost predicate JustStarted(m: Path, r: R.Responder) {
    && RI.Valid(r, m.w.rTape) && r.common.phase.PeerHandshake? && Trusted(r.common)
    && r.common.identity == IsResponder(m.w.a) && r.common.permanent == m.w.responder
    && r.initiator.permanentKey == m.w.initiator.Public() && r.draws == 1
    && ServerHeardOut(m, r.common)
  }

  /** Told that the initiator is there, a responder with a trusted key sends its first message under its first draw. */
  lemma AuthSendsFirst(m: Path, r: R.Responder, choice: Choice)
    requires Fits(m) && m.token.None? && m.initiatorFirst && ResponderGreeted(m, r)
    ensures var h := R.Next(r, m.w.rTape, Receive(ToResponder(m)[1], choice));
            && h.out.Ok? && JustStarted(m, h.state)
            && exists b: ByteBox :: Reply(b) in h.out.actions && b.nonce == Opening.FirstNonce(m.w.rTape(0), m.w.a)
  {
    hide R.Next;
    hide R.StartPeerHandshake;
    hide RI.Valid;
    hide P.After;
    hide P.BoxesTo;
    hide Fits;
    hide ResponderGreeted;
    hide A.Sent;
    AuthReachesResponder(m, r, choice);
    var h := R.Next(r, m.w.rTape, Receive(ToResponder(m)[1], choice));
    var r0 :| StartedFrom(m, r0, h.state, P.BoxesTo(h.out.actions, 1));
    Opening.StartSucceeds(m.w, r0);
    Opening.KeyOpens(m.w, r0);
    P.OneBox(R.StartPeerHandshake(r0).out.actions[0], 1);
    var b := R.StartPeerHandshake(r0).out.actions[0].box;
    assert b in P.BoxesTo(h.out.actions, 1);
    Reachability.BoxesAreSent(h.out.actions, 1, b);
    SentIsReply(h.out.actions, b);
  }

  lemma NewsSendsSecond(m: Path, r: R.Responder, choice: Choice)
    requires JustStarted(m, r) && m.toR.auth.Less(m.toR.news) && m.toR.news.Number() + 1 < CSN_LIMIT
    ensures var news := Reachability.NewsOfInitiator(m, r, m.toR.news.Increment().value);
            var h := R.Next(r, m.w.rTape, Receive(news, choice));
            && h.out.Ok? && |h.out.actions| == 1 && h.out.actions[0].Reply?
            && h.out.actions[0].box.nonce == Opening.FirstNonce(m.w.rTape(1), m.w.a)
  {
    hide R.Next;
    hide RI.Valid;
    Reachability.NewsRestarts(m, r, m.toR.news.Increment().value, choice);
  }

  lemma SameFirst(d: Draw, e: Draw, a: Address)
    requires d.cookie == e.cookie && d.start == e.start
    ensures Opening.FirstNonce(d, a) == Opening.FirstNonce(e, a)
  {
  }

  lemma ReusedLast(log: seq<Action>, b: ByteBox, c: ByteBox)
    requires Reply(b) in log && b.nonce == c.nonce
    ensures !NoReuse(log + [Reply(c)])
  {
    var i :| 0 <= i < |log| && log[i] == Reply(b);
    var all := log + [Reply(c)];
    assert all[i].box.nonce == all[|log|].box.nonce;
  }

  lemma RunOfTwo(h: RR.History, tape: Tape, one: Input, two: Input)
    requires h.live && R.Next(h.state, tape, one).out.Ok?
    ensures RR.Run(h, tape, [one, two]) == RR.Extend(RR.Extend(h, tape, one), tape, two)
  {
    hide R.Next;
    var g := RR.Extend(h, tape, one);
    assert [one, two][1..] == [two] && [two][1..] == [];
    assert RR.Run(g, tape, [two]) == RR.Run(RR.Extend(g, tape, two), tape, []);
  }

  lemma SentIsReply(actions: seq<Action>, b: ByteBox)
    requires b in A.Sent(actions)
    ensures Reply(b) in actions
  {
  }

  /** The responder once it has been told that the initiator is there. */
  ghost function Told(m: Path, choice: Choice): RR.History {
    RR.Run(RR.Start(CreatedResponder(m)), m.w.rTape,
           [Receive(ToResponder(m)[0], choice), Receive(ToResponder(m)[1], choice)])
  }

  lemma ToldSendsFirst(m: Path, choice: Choice) returns (b: ByteBox)
    requires Fits(m) && m.token.None? && m.initiatorFirst
    ensures Told(m, choice).live && JustStarted(m, Told(m, choice).state)
    ensures Reply(b) in Told(m, choice).log && b.nonce == Opening.FirstNonce(m.w.rTape(0), m.w.a)
  {
    hide R.Next;
    hide RR.HearingOf;
    hide RR.Run;
    hide Fits;
    hide CreatedResponder;
    hide ResponderGreeted;
    hide JustStarted;
    hide P.BoxesTo;
    hide Opening.FirstNonce;
    hide HelloBox;
    hide ServerBox;
    hide AuthToResponder;
    var one, two := Receive(ToResponder(m)[0], choice), Receive(ToResponder(m)[1], choice);
    HelloReachesResponder(m, choice);
    var r := R.Next(CreatedResponder(m), m.w.rTape, one).state;
    AuthSendsFirst(m, r, choice);
    RunOfTwo(RR.Start(CreatedResponder(m)), m.w.rTape, one, two);
    b :| Reply(b) in R.Next(r, m.w.rTape, two).out.actions && b.nonce == Opening.FirstNonce(m.w.rTape(0), m.w.a);
  }

  /**
   If the first two draws of a responder repeat cookie and start, its message to a new initiator carries the nonce of
   its first message to the previous one.
   */
  lemma RepeatedDrawReusesNonce(m: Path, choice: Choice)
    requires Fits(m) && m.token.None? && m.initiatorFirst && m.toR.news.Number() + 1 < CSN_LIMIT
    requires m.w.rTape(0).cookie == m.w.rTape(1).cookie && m.w.rTape(0).start == m.w.rTape(1).start
    ensures var told := Told(m, choice);
            var news := Reachability.NewsOfInitiator(m, told.state, m.toR.news.Increment().value);
            var h := RR.Extend(told, m.w.rTape, Receive(news, choice));
            told.live && h.live && !NoReuse(h.log)
  {
    hide R.Next;
    hide RR.HearingOf;
    hide Told;
    hide JustStarted;
    hide Opening.FirstNonce;
    hide Reachability.NewsOfInitiator;
    hide NoReuse;
    hide FreshDraws;
    hide GoodList;
    hide NoDup;
    var b := ToldSendsFirst(m, choice);
    var told := Told(m, choice);
    var news := Reachability.NewsOfInitiator(m, told.state, m.toR.news.Increment().value);
    NewsSendsSecond(m, told.state, choice);
    var actions := R.Next(told.state, m.w.rTape, Receive(news, choice)).out.actions;
    SameFirst(m.w.rTape(0), m.w.rTape(1), m.w.a);
    ReusedLast(told.log, b, actions[0].box);
    assert actions == [Reply(actions[0].box)];
  }
}
