/** Whole runs of an initiator. */
module InitiatorRuns {
  import opened Basics
  import opened CombinedSequence
  import opened Messages
  import opened Boxes
  import opened Tasks
  import opened Negotiation
  import opened Contexts
  import opened Signaling
  import opened InitiatorProtocol
  import opened InitiatorInvariants
  import opened RunShape
  import opened Progression
  import opened Ledger

  // ---------- Links ----------

  ghost function Links(s: Initiator): set<Link> {
    {s.common.server.link} + (set a | a in s.responders :: s.responders[a].link)
    + (if s.responder.Some? then {s.responder.value.link} else {})
  }

  /** The same link, but for our own sequence number. */
  ghost predicate SameButOurs(l: Link, k: Link) {
    k == l.(ourCsn := k.ourCsn)
  }

  /** Handlers leave alone what validation recorded about the peers; new contexts start empty. */
  ghost predicate Quiet(s: Initiator, t: Initiator) {
    && s.counter <= t.counter
    && SameButOurs(s.common.server.link, t.common.server.link)
    && (forall a :: a in t.responders ==>
          if t.responders[a].counter < s.counter
          then a in s.responders && SameButOurs(s.responders[a].link, t.responders[a].link)
          else NothingHeard(t.responders[a].link))
    && (t.responder.Some? ==>
          if s.responder.Some? then SameButOurs(s.responder.value.link, t.responder.value.link)
          else t.responder.value.address in s.responders
               && SameButOurs(s.responders[t.responder.value.address].link, t.responder.value.link))
  }

  lemma QuietTwice(s: Initiator, p: Initiator, q: Initiator)
    requires Quiet(s, p) && Quiet(p, q) && p.responder == s.responder && q.responder == p.responder
    requires forall a :: a in p.responders && a in q.responders && q.responders[a].counter < p.counter ==>
               q.responders[a].counter == p.responders[a].counter
    ensures Quiet(s, q)
  {
  }

  lemma JoinIsQuiet(s: Initiator, tape: Tape, a: Address)
    requires CoreValid(s, tape) && s.common.server.sessionKey.Some? && 2 <= a
    ensures var h := ProcessNewResponder(s, a, tape);
            h.out.Ok? ==>
              && Quiet(s, h.state) && h.state.responder == s.responder
              && (forall b ::
                  b in s.responders && b in h.state.responders && h.state.responders[b].counter < s.counter ==>
                    h.state.responders[b] == s.responders[b])
  {
    hide ProcessNewResponder;
    hide Cleaned;
    hide AuthValid;
    PathIsCleaned(s, tape, a);
    var h := ProcessNewResponder(s, a, tape);
    if h.out.Ok? { CleanedMap(s, tape, a, h.state, h.out.actions); }
  }

  lemma {:induction false} RegisterAllIsQuiet(s: Initiator, tape: Tape, order: seq<Address>)
    requires Valid(s, tape) && s.common.phase.ServerHandshake? && s.common.server.sessionKey.Some?
    requires ResponderAddresses(order)
    ensures var h := RegisterAll(s, order, tape);
            h.out.Ok? ==> Quiet(s, h.state) && h.state.responder == s.responder
  {
    hide CoreValid;
    hide Split;
    hide ProcessNewResponder;
    if order != [] {
      var front, a := order[..|order| - 1], order[|order| - 1];
      RegisterAllIsQuiet(s, tape, front);
      RegisterAllSplits(s, tape, front);
      var p := RegisterAll(s, front, tape);
      if p.out.Ok? {
        SplitCommon(s, front, p.state, p.out.actions);
        JoinIsQuiet(p.state, tape, a);
        var q := ProcessNewResponder(p.state, a, tape);
        if q.out.Ok? { QuietTwice(s, p.state, q.state); }
      }
    }
  }

  lemma {:induction false} DropAllIsQuiet(c: Common, ids: seq<Address>)
    ensures var h := DropAll(c, ids);
            SameButOurs(c.server.link, h.state.server.link)
  {
    hide Csn.Increment;
    if ids != [] { DropAllIsQuiet(c, ids[..|ids| - 1]); }
  }

  lemma AuthIsQuiet(s: Initiator, tape: Tape, auth: Auth, source: Address, choice: Choice)
    requires Valid(s, tape) && s.common.phase.PeerHandshake? && source in s.responders
    ensures var h := HandleAuth(s, auth, source, choice);
            h.out.Ok? ==> Quiet(s, h.state)
  {
    hide Csn.Increment;
    hide DropAll;
    hide AuthValid;
    hide ChooseShared;
    hide CloseWithoutTask;
    hide ProposalPasses;
    DropAllIsQuiet(TakenOut(s, source).common, choice.order(TakenOut(s, source).responders.Keys));
  }

  lemma TokenIsQuiet(s: Initiator, tape: Tape, key: PublicKey, source: Address)
    requires Valid(s, tape) && s.common.phase.PeerHandshake? && source in s.responders
    ensures Quiet(s, HandleToken(s, key, source).state)
  {
    hide AuthValid;
  }

  lemma KeyIsQuiet(s: Initiator, tape: Tape, key: PublicKey, source: Address)
    requires Valid(s, tape) && s.common.phase.PeerHandshake? && source in s.responders
    ensures Quiet(s, HandleKey(s, key, source).state)
  {
    hide Csn.Increment;
    hide AuthValid;
  }

  lemma PeerIsQuiet(s: Initiator, tape: Tape, b: ByteBox, choice: Choice)
    requires Valid(s, tape) && s.common.phase.PeerHandshake?
    ensures var h := HandleHandshakePeer(s, b, choice);
            h.out.Ok? ==> Quiet(s, h.state)
  {
    hide HandleAuth;
    hide HandleToken;
    hide HandleKey;
    hide AuthValid;
    hide Csn.Increment;
    var d := DecodePeer(s, b);
    if b.nonce.source in s.responders && d.Success? && (d.value.Token? || d.value.Key?) {
      TokenIsQuiet(s, tape, d.value.key, b.nonce.source);
      KeyIsQuiet(s, tape, d.value.key, b.nonce.source);
    }
    if d.Success? && d.value.AuthMsg? && b.nonce.source in s.responders {
      AuthIsQuiet(s, tape, d.value.auth, b.nonce.source, choice);
    }
  }

  lemma ServerIsQuiet(s: Initiator, tape: Tape, m: Message, nonce: Nonce, choice: Choice)
    requires Valid(s, tape)
    ensures var h := HandleServerMessage(s, m, nonce, tape, choice);
            h.out.Ok? ==> Quiet(s, h.state)
  {
    hide Csn.Increment;
    hide ProcessNewResponder;
    hide RegisterAll;
    hide AuthValid;
    hide CheckServerAuth;
    if s.common.server.handshake.ClientInfoSent? && m.ServerAuth? && ListingPasses(m) {
      ListingIsInRange(m, choice.order);
      RegisterAllIsQuiet(s, tape, choice.order(set a | a in m.responders.value));
    } else if s.common.server.handshake.ServerDone? && m.NewResponder? && 2 <= m.id {
      JoinIsQuiet(s, tape, m.id);
    }
  }

  lemma HandlersAreQuiet(s: Initiator, tape: Tape, b: ByteBox, choice: Choice)
    requires Valid(s, tape) && (b.nonce.source != 0 ==> !s.common.phase.ServerHandshake?)
    ensures var h := HandleValid(s, b, tape, choice);
            h.out.Ok? ==> Quiet(s, h.state)
  {
    hide HandleServerMessage;
    hide HandleHandshakePeer;
    hide TaskActions;
    hide AuthValid;
    if b.nonce.source == 0 {
      var m := DecodeServer(s.common, b);
      if m.Success? { ServerIsQuiet(s, tape, m.value, b.nonce, choice); }
    } else if !s.common.phase.TaskPhase? {
      PeerIsQuiet(s, tape, b, choice);
    }
  }

  // ---------- One step on the ledger ----------

  /** The nonce a step accepts, if any. */
  ghost function HearingOf(s: Initiator, input: Input): Option<Hearing> {
    if input.Receive? && ValidateNonce(s, input.box.nonce).1.Accept? && PeerLink(s, input.box.nonce.source).Some?
    then Some(Hearing(PeerLink(s, input.box.nonce.source).value.ourCookie, input.box.nonce))
    else None
  }

  /** What a validated message changes is exactly the link of its sender. */
  lemma ValidationOnLinks(s: Initiator, n: Nonce)
    ensures var (t, v) := ValidateNonce(s, n);
            && (v.Accept? ==>
                  && PeerLink(s, n.source).Some?
                  && Admit(PeerLink(s, n.source).value, n).1
                  && t == WithPeerLink(s.(common := s.common.(identity := t.common.identity)), n.source,
                                       Admit(PeerLink(s, n.source).value, n).0))
            && (v.DropMsg? ==> t == s.(common := s.common.(identity := t.common.identity)))
  {
  }

  /** A link of the state belongs to the server, to a responder in the map or to the chosen responder. */
  lemma PeerLinkIsHeld(s: Initiator, tape: Tape, server: Cookie, addr: Address)
    requires Valid(s, tape) && server == s.common.server.link.ourCookie && PeerLink(s, addr).Some?
    ensures PeerLink(s, addr).value in Links(s)
    ensures Known(PeerLink(s, addr).value.ourCookie, tape, server, s.counter)
  {
  }

  /** Every context evolves as the ledger demands when `h` is heard. */
  ghost predicate ContextsEvolve(s: Initiator, t: Initiator, h: Option<Hearing>) {
    && t.responders.Keys == s.responders.Keys
    && forall a :: a in s.responders ==> SameContext(s.responders[a], t.responders[a], h)
  }

  ghost predicate SameContext(r: ResponderContext, q: ResponderContext, h: Option<Hearing>) {
    q.counter == r.counter && q.address == r.address && Evolves(r.link, q.link, h)
  }

  ghost predicate ChosenEvolves(s: Initiator, t: Initiator, h: Option<Hearing>) {
    if s.responder.None? then t.responder.None?
    else t.responder.Some? && SameContext(s.responder.value, t.responder.value, h)
  }

  /** Validation moves the sender's link and no other. */
  lemma ValidationMoves(s: Initiator, tape: Tape, n: Nonce, server: Cookie, h: Option<Hearing>)
    requires Valid(s, tape) && server == s.common.server.link.ourCookie && DistinctCookies(tape, server, s.counter)
    requires ValidateNonce(s, n).1.Accept? && PeerLink(s, n.source).Some?
    requires h == Some(Hearing(PeerLink(s, n.source).value.ourCookie, n))
    ensures var t := ValidateNonce(s, n).0;
            && t.counter == s.counter
            && Evolves(s.common.server.link, t.common.server.link, h)
            && ContextsEvolve(s, t, h)
            && ChosenEvolves(s, t, h)
  {
    hide Admit;
    hide AuthValid;
    hide CommonValid;
    hide ChosenValid;
    hide ValidateNonce;
    hide Evolves;
    ValidationOnLinks(s, n);
    var l := PeerLink(s, n.source).value;
    HeardEvolves(l, n, h);
    OthersEvolve(s, tape, server, n, h);
    var t := ValidateNonce(s, n).0;
    assert t.responders.Keys == s.responders.Keys;
  }

  lemma HeardEvolves(l: Link, n: Nonce, h: Option<Hearing>)
    requires h == Some(Hearing(l.ourCookie, n)) && Admit(l, n).1
    ensures Evolves(l, Admit(l, n).0, h)
  {
  }

  /** Every link but the sender's stays as it is, since no other has its cookie. */
  lemma OthersEvolve(s: Initiator, tape: Tape, server: Cookie, n: Nonce, h: Option<Hearing>)
    requires Valid(s, tape) && server == s.common.server.link.ourCookie && DistinctCookies(tape, server, s.counter)
    requires PeerLink(s, n.source).Some?
    requires h == Some(Hearing(PeerLink(s, n.source).value.ourCookie, n))
    ensures n.source != 0 ==> Evolves(s.common.server.link, s.common.server.link, h)
    ensures forall a :: a in s.responders && (a != n.source || s.common.phase.TaskPhase?) ==>
              Evolves(s.responders[a].link, s.responders[a].link, h)
    ensures s.responder.Some? && n.source == 0 ==> Evolves(s.responder.value.link, s.responder.value.link, h)
  {
  }

  lemma EvolvesOn(l: Link, k: Link, m: Link, h: Option<Hearing>)
    requires Evolves(l, k, h) && SameButOurs(k, m) && l.ourCsn.Number() <= m.ourCsn.Number()
    ensures Evolves(l, m, h)
  {
  }

  /** A context that is new since `s` has a cookie that was never used before. */
  lemma NewIsUnused(r: ResponderContext, tape: Tape, server: Cookie, counter: nat)
    requires counter <= r.counter && r.link.ourCookie == tape(r.counter).cookie && NothingHeard(r.link)
    requires DistinctCookies(tape, server, r.counter + 1)
    ensures Unused(r.link, tape, server, counter)
  {
  }

  /** A step made of validation and a quiet handler moves every link as the ledger demands. */
  lemma QuietMoves(s: Initiator, tape: Tape, server: Cookie, t: Initiator, u: Initiator, h: Option<Hearing>)
    requires Valid(s, tape) && server == s.common.server.link.ourCookie && DistinctCookies(tape, server, u.counter)
    requires t.counter == s.counter && Evolves(s.common.server.link, t.common.server.link, h)
    requires ContextsEvolve(s, t, h) && ChosenEvolves(s, t, h)
    requires Quiet(t, u) && Valid(u, tape) && Forward(s, u)
    ensures LinksEvolve(Links(s), Links(u), tape, server, s.counter, h)
  {
    hide AuthValid;
    hide MapValid;
    hide Evolves;
    hide CommonValid;
    hide ContextsEvolve;
    hide ChosenEvolves;
    hide Unused;
    EvolvesOn(s.common.server.link, t.common.server.link, u.common.server.link, h);
    forall k | k in Links(u)
      ensures Unused(k, tape, server, s.counter) || exists l :: l in Links(s) && Evolves(l, k, h)
    {
      if k == u.common.server.link {
        assert s.common.server.link in Links(s);
      } else if exists a :: a in u.responders && k == u.responders[a].link {
        var a :| a in u.responders && k == u.responders[a].link;
        ContextMovesOn(s, tape, server, t, u, h, a);
      } else {
        ChosenMovesOn(s, tape, t, u, h);
      }
    }
  }

  lemma ContextMovesOn(s: Initiator, tape: Tape, server: Cookie, t: Initiator, u: Initiator, h: Option<Hearing>,
                       a: Address)
    requires Valid(u, tape) && DistinctCookies(tape, server, u.counter) && t.counter == s.counter
    requires ContextsEvolve(s, t, h)
    requires Quiet(t, u) && Forward(s, u) && a in u.responders
    ensures var k := u.responders[a].link;
            Unused(k, tape, server, s.counter) || exists l :: l in Links(s) && Evolves(l, k, h)
  {
    hide AuthValid;
    hide Evolves;
    MapGives(u, tape, a);
    var r := u.responders[a];
    if r.counter < s.counter {
      assert ContextForward(s.responders[a], r);
      assert SameContext(s.responders[a], t.responders[a], h);
      EvolvesOn(s.responders[a].link, t.responders[a].link, r.link, h);
      assert s.responders[a].link in Links(s);
    } else {
      NewIsUnused(r, tape, server, s.counter);
    }
  }

  lemma ChosenMovesOn(s: Initiator, tape: Tape, t: Initiator, u: Initiator, h: Option<Hearing>)
    requires u.responder.Some? && ContextsEvolve(s, t, h) && ChosenEvolves(s, t, h)
    requires Quiet(t, u) && Forward(s, u)
    ensures exists l :: l in Links(s) && Evolves(l, u.responder.value.link, h)
  {
    hide Evolves;
    var k, a := u.responder.value.link, u.responder.value.address;
    if s.responder.Some? {
      EvolvesOn(s.responder.value.link, t.responder.value.link, k, h);
      assert s.responder.value.link in Links(s);
    } else {
      assert SameContext(s.responders[a], t.responders[a], h);
      EvolvesOn(s.responders[a].link, t.responders[a].link, k, h);
      assert s.responders[a].link in Links(s);
    }
  }

  lemma ReceiveUnfolds(s: Initiator, tape: Tape, input: Input)
    requires input.Receive?
    ensures var (t, v) := ValidateNonce(s, input.box.nonce);
            && (v.Accept? ==> Next(s, tape, input) == HandleValid(t, input.box, tape, input.choice))
            && (v.DropMsg? ==> Next(s, tape, input).state == t)
            && (Next(s, tape, input).out.Ok? ==> v.Accept? || v.DropMsg?)
  {
  }

  lemma SendIsQuiet(s: Initiator, tape: Tape, input: Input)
    requires Valid(s, tape) && !input.Receive?
    ensures Quiet(s, Next(s, tape, input).state)
  {
  }

  /** A state in which nothing was heard. */
  lemma UnheardEvolves(s: Initiator, t: Initiator)
    requires t == s.(common := s.common.(identity := t.common.identity))
    ensures Evolves(s.common.server.link, t.common.server.link, None) && ContextsEvolve(s, t, None)
            && ChosenEvolves(s, t, None)
  {
  }

  /** One step moves all links as the ledger demands. */
  lemma LinksMove(s: Initiator, tape: Tape, input: Input, server: Cookie)
    requires Valid(s, tape) && server == s.common.server.link.ourCookie
    requires DistinctCookies(tape, server, Next(s, tape, input).state.counter)
    requires Next(s, tape, input).out.Ok?
    ensures LinksEvolve(Links(s), Links(Next(s, tape, input).state), tape, server, s.counter, HearingOf(s, input))
  {
    hide Valid;
    hide Forward;
    hide Quiet;
    hide HandleValid;
    hide ValidateNonce;
    hide Next;
    hide Links;
    hide ContextsEvolve;
    hide ChosenEvolves;
    hide Evolves;
    hide Emits;
    hide Authored;
    NextFollows(s, tape, input);
    StepCounts(s, tape, input);
    var u := Next(s, tape, input).state;
    var h := HearingOf(s, input);
    if input.Receive? {
      var n := input.box.nonce;
      var (t, v) := ValidateNonce(s, n);
      ReceiveUnfolds(s, tape, input);
      ValidationOnLinks(s, n);
      ValidationHears(s, tape, n);
      if v.Accept? {
        ValidationMoves(s, tape, n, server, h);
        HeardIsValid(s, tape, t);
        HandlersAreQuiet(t, tape, input.box, input.choice);
        QuietMoves(s, tape, server, t, u, h);
      } else {
        UnheardEvolves(s, u);
        StaysQuiet(u, tape);
        QuietMoves(s, tape, server, u, u, h);
      }
    } else {
      SendIsQuiet(s, tape, input);
      UnheardEvolves(s, s);
      QuietMoves(s, tape, server, s, u, h);
    }
  }

  lemma StaysQuiet(s: Initiator, tape: Tape)
    requires Valid(s, tape)
    ensures Quiet(s, s)
  {
  }

  lemma ServerNonceIssues(s: Initiator, tape: Tape, server: Cookie, u: Initiator, n: Nonce)
    requires server == s.common.server.link.ourCookie && DistinctCookies(tape, server, u.counter) && Valid(u, tape)
    requires u.common.server.link.ourCookie == server && NewOn(s.common.server.link, u.common.server.link, n)
    ensures forall k :: k in Links(u) && k.ourCookie == n.cookie ==> n.csn.Number() <= k.ourCsn.Number()
  {
  }

  /** Every link but the server's belongs to a context the initiator holds. */
  lemma LinkOwner(u: Initiator, tape: Tape, k: Link) returns (r: ResponderContext)
    requires Valid(u, tape) && k in Links(u) && k != u.common.server.link
    ensures Holds(u, r) && r.link == k && k.ourCookie == tape(r.counter).cookie && r.counter < u.counter
  {
    hide AuthValid;
    if exists a :: a in u.responders && k == u.responders[a].link {
      var a :| a in u.responders && k == u.responders[a].link;
      MapGives(u, tape, a);
      r := u.responders[a];
    } else {
      r := u.responder.value;
    }
  }

  lemma ContextNonceIssues(s: Initiator, tape: Tape, server: Cookie, u: Initiator, r: ResponderContext, n: Nonce)
    requires DistinctCookies(tape, server, u.counter) && Valid(s, tape) && Valid(u, tape)
    requires u.common.server.link.ourCookie == server && s.counter <= u.counter && IssuedOn(s, u, r, n)
    ensures r.link in Links(s) && r.counter < s.counter && n.cookie == tape(r.counter).cookie
    ensures forall k :: k in Links(u) && k.ourCookie == n.cookie ==> n.csn.Number() <= k.ourCsn.Number()
  {
    hide AuthValid;
    assert r.counter < s.counter && r.link.ourCookie == tape(r.counter).cookie by {
      if r.address in s.responders && s.responders[r.address] == r { MapGives(s, tape, r.address); }
    }
    forall k | k in Links(u) && k.ourCookie == n.cookie ensures n.csn.Number() <= k.ourCsn.Number() {
      assert k != u.common.server.link;
      var q := LinkOwner(u, tape, k);
      assert q.counter == r.counter;
    }
  }

  /** One step hands out nonces as the ledger demands. */
  lemma NoncesIssue(s: Initiator, tape: Tape, input: Input, server: Cookie)
    requires Valid(s, tape) && server == s.common.server.link.ourCookie
    requires DistinctCookies(tape, server, Next(s, tape, input).state.counter)
    requires Next(s, tape, input).out.Ok?
    ensures var h := Next(s, tape, input);
            Issues(Links(s), Links(h.state), tape, server, s.counter, h.state.counter, h.out.actions)
  {
    hide Next;
    hide Valid;
    hide IssuedOn;
    hide NewOn;
    hide Authored;
    NextFollows(s, tape, input);
    var h := Next(s, tape, input);
    var t, a := h.state, h.out.actions;
    assert t.common.server.link.ourCookie == server;
    forall i | 0 <= i < |a| && a[i].Reply?
      ensures Known(a[i].box.nonce.cookie, tape, server, t.counter)
      ensures exists l ::
              l in Links(s) && l.ourCookie == a[i].box.nonce.cookie && l.ourCsn.Number() < a[i].box.nonce.csn.Number()
      ensures forall k :: k in Links(t) && k.ourCookie == a[i].box.nonce.cookie ==>
              a[i].box.nonce.csn.Number() <= k.ourCsn.Number()
    {
      NonceIssues(s, tape, server, t, a[i].box.nonce);
    }
  }

  lemma NonceIssues(s: Initiator, tape: Tape, server: Cookie, t: Initiator, n: Nonce)
    requires Valid(s, tape) && server == s.common.server.link.ourCookie && DistinctCookies(tape, server, t.counter)
    requires Valid(t, tape) && t.common.server.link.ourCookie == server && s.counter <= t.counter && Issued(s, t, n)
    ensures Known(n.cookie, tape, server, t.counter)
    ensures exists l :: l in Links(s) && l.ourCookie == n.cookie && l.ourCsn.Number() < n.csn.Number()
    ensures forall k :: k in Links(t) && k.ourCookie == n.cookie ==> n.csn.Number() <= k.ourCsn.Number()
  {
    hide Valid;
    if NewOn(s.common.server.link, t.common.server.link, n) {
      ServerNonceIssues(s, tape, server, t, n);
      assert s.common.server.link in Links(s);
    } else {
      var r :| IssuedOn(s, t, r, n);
      ContextNonceIssues(s, tape, server, t, r, n);
    }
  }

  // ---------- Tokens ----------

  /** The step accepts a token message. */
  ghost predicate AcceptsToken(s: Initiator, tape: Tape, input: Input) {
    && input.Receive?
    && Next(s, tape, input).out.Ok?
    && ValidateNonce(s, input.box.nonce).1.Accept?
    && input.box.nonce.source != 0
    && var t := ValidateNonce(s, input.box.nonce).0;
       t.common.phase.PeerHandshake? && DecodePeer(t, input.box).Success? && DecodePeer(t, input.box).value.Token?
  }

  /** Accepting a token takes a token that was not spent before and spends it. */
  lemma TokenIsSpent(s: Initiator, tape: Tape, input: Input)
    requires Valid(s, tape) && AcceptsToken(s, tape, input)
    ensures SpendableToken(s.common) && Next(s, tape, input).state.common.auth.None?
  {
  }

  // ---------- Runs ----------

  /**
   A run so far: where it stands, what it asked the driver to do, what it accepted and how many tokens it took.
   It ends with the first error.
   */
  datatype History = History(state: Initiator, log: seq<Action>, heard: seq<Hearing>, tokens: nat, live: bool)

  ghost function Extend(h: History, tape: Tape, input: Input): History {
    var n := Next(h.state, tape, input);
    History(n.state, if n.out.Ok? then h.log + n.out.actions else h.log,
            h.heard + Listed(HearingOf(h.state, input)),
            if AcceptsToken(h.state, tape, input) then h.tokens + 1 else h.tokens, n.out.Ok?)
  }

  ghost function Run(h: History, tape: Tape, inputs: seq<Input>): History
    decreases |inputs|
  {
    if inputs == [] || !h.live then h else Run(Extend(h, tape, inputs[0]), tape, inputs[1..])
  }

  lemma JoinCounts(s: Initiator, a: Address, tape: Tape)
    ensures s.counter <= ProcessNewResponder(s, a, tape).state.counter
    ensures s.counter <= COUNTER_MAX ==> ProcessNewResponder(s, a, tape).state.counter <= COUNTER_MAX
  {
    hide OldestBelow;
    hide Csn.Increment;
  }

  lemma {:induction false} RegistrationCounts(s: Initiator, order: seq<Address>, tape: Tape)
    ensures s.counter <= RegisterAll(s, order, tape).state.counter
    ensures s.counter <= COUNTER_MAX ==> RegisterAll(s, order, tape).state.counter <= COUNTER_MAX
  {
    hide ProcessNewResponder;
    if order != [] {
      var front := order[..|order| - 1];
      RegistrationCounts(s, front, tape);
      JoinCounts(RegisterAll(s, front, tape).state, order[|order| - 1], tape);
    }
  }

  lemma PeerCounts(s: Initiator, b: ByteBox, choice: Choice)
    ensures HandleHandshakePeer(s, b, choice).state.counter == s.counter
    ensures HandleTaskPeer(s, b).state.counter == s.counter
  {
    hide DropAll;
    hide Csn.Increment;
    hide DecodePeer;
    hide TaskActions;
  }

  lemma ServerCounts(s: Initiator, m: Message, nonce: Nonce, tape: Tape, choice: Choice)
    ensures var t := HandleServerMessage(s, m, nonce, tape, choice).state;
            s.counter <= t.counter && (s.counter <= COUNTER_MAX ==> t.counter <= COUNTER_MAX)
  {
    hide RegisterAll;
    hide ProcessNewResponder;
    hide Csn.Increment;
    hide CheckServerAuth;
    if m.ServerAuth? && m.responders.Some? {
      RegistrationCounts(s, choice.order(set a | a in m.responders.value), tape);
    } else if m.NewResponder? {
      JoinCounts(s, m.id, tape);
    }
  }

  /** No step, not even one that fails, takes back a draw or takes more than there are numbers. */
  lemma StepCounts(s: Initiator, tape: Tape, input: Input)
    ensures var t := Next(s, tape, input).state;
            s.counter <= t.counter && (s.counter <= COUNTER_MAX ==> t.counter <= COUNTER_MAX)
  {
    hide ValidateNonce;
    hide HandleHandshakePeer;
    hide HandleTaskPeer;
    hide HandleServerMessage;
    hide Csn.Increment;
    if input.Receive? {
      var b := input.box;
      ValidationCounts(s, b.nonce);
      var t := ValidateNonce(s, b.nonce).0;
      PeerCounts(t, b, input.choice);
      var d := DecodeServer(t.common, b);
      if d.Success? { ServerCounts(t, d.value, b.nonce, tape, input.choice); }
    }
  }

  lemma ValidationCounts(s: Initiator, n: Nonce)
    ensures ValidateNonce(s, n).0.counter == s.counter
  {
  }

  lemma {:induction false} RunCounts(h: History, tape: Tape, inputs: seq<Input>)
    ensures h.state.counter <= Run(h, tape, inputs).state.counter
    ensures h.state.counter <= COUNTER_MAX ==> Run(h, tape, inputs).state.counter <= COUNTER_MAX
    decreases |inputs|
  {
    hide Next;
    if inputs != [] && h.live {
      StepCounts(h.state, tape, inputs[0]);
      RunCounts(Extend(h, tape, inputs[0]), tape, inputs[1..]);
    }
  }

  /** What holds along every run. */
  ghost predicate RunValid(h: History, tape: Tape) {
    && Shape(ServerHandshake, h.log).Some?
    && h.tokens <= 1
    && (h.live ==>
          && Valid(h.state, tape)
          && Shape(ServerHandshake, h.log) == Some(h.state.common.phase)
          && (SpendableToken(h.state.common) || Trusted(h.state.common) ==> h.tokens == 0))
  }

  /** What holds along every run whose cookies are distinct. */
  ghost predicate LedgerValid(h: History, tape: Tape, server: Cookie) {
    && Increasing(h.log)
    && NoReplay(h.heard)
    && (h.live ==>
          && h.state.common.server.link.ourCookie == server
          && Balanced(Links(h.state), tape, server, h.state.counter, h.log, h.heard))
  }

  lemma ExtendKeeps(h: History, tape: Tape, input: Input)
    requires RunValid(h, tape) && h.live
    ensures RunValid(Extend(h, tape, input), tape)
  {
    hide Next;
    hide HearingOf;
    hide Valid;
    hide AcceptsToken;
    var n := Next(h.state, tape, input);
    if AcceptsToken(h.state, tape, input) {
      TokenIsSpent(h.state, tape, input);
    }
    if n.out.Ok? {
      NextFollows(h.state, tape, input);
      ShapeConcat(ServerHandshake, h.log, n.out.actions);
    }
  }

  lemma {:induction false} RunKeeps(h: History, tape: Tape, inputs: seq<Input>)
    requires RunValid(h, tape)
    ensures RunValid(Run(h, tape, inputs), tape)
    decreases |inputs|
  {
    hide RunValid;
    hide Extend;
    if inputs != [] && h.live {
      ExtendKeeps(h, tape, inputs[0]);
      RunKeeps(Extend(h, tape, inputs[0]), tape, inputs[1..]);
    }
  }

  lemma HearingIsAdmitted(s: Initiator, tape: Tape, input: Input, server: Cookie)
    requires Valid(s, tape) && server == s.common.server.link.ourCookie && HearingOf(s, input).Some?
    ensures Admits(Links(s), HearingOf(s, input).value)
    ensures Known(HearingOf(s, input).value.context, tape, server, s.counter)
  {
    hide Admit;
    hide Valid;
    ValidationOnLinks(s, input.box.nonce);
    PeerLinkIsHeld(s, tape, server, input.box.nonce.source);
  }

  lemma ExtendKeepsLedger(h: History, tape: Tape, input: Input, server: Cookie)
    requires RunValid(h, tape) && LedgerValid(h, tape, server) && h.live
    requires DistinctCookies(tape, server, Extend(h, tape, input).state.counter)
    ensures LedgerValid(Extend(h, tape, input), tape, server)
  {
    hide Next;
    hide HearingOf;
    hide Valid;
    hide AcceptsToken;
    hide Links;
    var n := Next(h.state, tape, input);
    var hearing := HearingOf(h.state, input);
    if hearing.Some? {
      HearingIsAdmitted(h.state, tape, input, server);
      HearingKeepsNoReplay(Links(h.state), tape, server, h.state.counter, h.log, h.heard, hearing.value);
    } else {
      assert h.heard + Listed(hearing) == h.heard;
    }
    if n.out.Ok? {
      NextFollows(h.state, tape, input);
      LinksMove(h.state, tape, input, server);
      NoncesIssue(h.state, tape, input, server);
      StepBalances(Links(h.state), Links(n.state), tape, server, h.state.counter, n.state.counter, h.log, h.heard,
                   n.out.actions, hearing);
    }
  }

  lemma {:induction false} RunKeepsLedger(h: History, tape: Tape, inputs: seq<Input>, server: Cookie)
    requires RunValid(h, tape) && LedgerValid(h, tape, server)
    requires DistinctCookies(tape, server, Run(h, tape, inputs).state.counter)
    ensures LedgerValid(Run(h, tape, inputs), tape, server)
    decreases |inputs|
  {
    hide RunValid;
    hide LedgerValid;
    hide Extend;
    if inputs != [] && h.live {
      ExtendKeeps(h, tape, inputs[0]);
      RunCounts(Extend(h, tape, inputs[0]), tape, inputs[1..]);
      ExtendKeepsLedger(h, tape, inputs[0], server);
      RunKeepsLedger(Extend(h, tape, inputs[0]), tape, inputs[1..], server);
    }
  }

  /** A freshly created initiator that has not received anything. */
  ghost function Start(s: Initiator): History {
    History(s, [], [], 0, true)
  }

  ghost predicate Created(s: Initiator) {
    exists permanent, tasks, auth, serverKey, d :: s == Create(permanent, tasks, auth, serverKey, d)
  }

  lemma StartIsValid(s: Initiator, tape: Tape)
    requires Created(s)
    ensures RunValid(Start(s), tape) && LedgerValid(Start(s), tape, s.common.server.link.ourCookie)
  {
    hide Valid;
    hide Balanced;
    CreatedIsValid(s, tape);
    CreatedIsBalanced(s, tape);
  }

  lemma CreatedIsValid(s: Initiator, tape: Tape)
    requires Created(s)
    ensures Valid(s, tape) && s.common.phase.ServerHandshake?
  {
  }

  lemma CreatedIsBalanced(s: Initiator, tape: Tape)
    requires Created(s)
    ensures Balanced(Links(s), tape, s.common.server.link.ourCookie, s.counter, [], [])
  {
  }

  /** The state invariant holds after every run that has not ended in an error. */
  lemma RunsStayValid(s: Initiator, tape: Tape, inputs: seq<Input>)
    requires Created(s)
    ensures var h := Run(Start(s), tape, inputs);
            h.live ==> Valid(h.state, tape)
  {
    StartIsValid(s, tape);
    RunKeeps(Start(s), tape, inputs);
  }

  /** Over every run: no outgoing nonce is used twice and no incoming nonce is accepted twice. */
  lemma NoncesAreFresh(s: Initiator, tape: Tape, inputs: seq<Input>)
    requires Created(s)
    requires DistinctCookies(tape, s.common.server.link.ourCookie, Run(Start(s), tape, inputs).state.counter)
    ensures var h := Run(Start(s), tape, inputs);
            Increasing(h.log) && NoReuse(h.log) && NoReplay(h.heard)
  {
    StartIsValid(s, tape);
    RunKeepsLedger(Start(s), tape, inputs, s.common.server.link.ourCookie);
    IncreasingMeansNoReuse(Run(Start(s), tape, inputs).log);
  }

  /** Over every run: what the driver is told is in the order it relies on, and the phase follows from it. */
  lemma RunsAreShaped(s: Initiator, tape: Tape, inputs: seq<Input>)
    requires Created(s)
    ensures var h := Run(Start(s), tape, inputs);
            && Promises(h.log)
            && (h.live ==> Shape(ServerHandshake, h.log) == Some(h.state.common.phase))
  {
    StartIsValid(s, tape);
    RunKeeps(Start(s), tape, inputs);
    ShapeKeepsPromises(Run(Start(s), tape, inputs).log);
  }

  /** Over every run: at most one token is accepted, and none by an initiator that trusts a key. */
  lemma TokenIsSingleUse(s: Initiator, tape: Tape, inputs: seq<Input>)
    requires Created(s)
    ensures var h := Run(Start(s), tape, inputs);
            h.tokens <= 1 && (Trusted(s.common) ==> h.tokens == 0)
  {
    StartIsValid(s, tape);
    RunKeeps(Start(s), tape, inputs);
    if Trusted(s.common) { TrustedRunsTakeNoToken(Start(s), tape, inputs); }
  }

  lemma TrustedStepTakesNoToken(s: Initiator, tape: Tape, input: Input)
    requires Valid(s, tape) && Trusted(s.common)
    ensures !AcceptsToken(s, tape, input)
    ensures Next(s, tape, input).out.Ok? ==>
            Valid(Next(s, tape, input).state, tape) && Trusted(Next(s, tape, input).state.common)
  {
    hide AcceptsToken;
    hide Next;
    hide Valid;
    if AcceptsToken(s, tape, input) { TokenIsSpent(s, tape, input); }
    NextFollows(s, tape, input);
  }

  lemma {:induction false} TrustedRunsTakeNoToken(h: History, tape: Tape, inputs: seq<Input>)
    requires h.live ==> Valid(h.state, tape) && Trusted(h.state.common)
    ensures Run(h, tape, inputs).tokens == h.tokens
    decreases |inputs|
  {
    hide AcceptsToken;
    hide Next;
    hide Valid;
    hide HearingOf;
    if inputs != [] && h.live {
      TrustedStepTakesNoToken(h.state, tape, inputs[0]);
      TrustedRunsTakeNoToken(Extend(h, tape, inputs[0]), tape, inputs[1..]);
    }
  }

  // ---------- What the invariant rules out ----------

  /**
   After every run that has not failed: addresses are in range and fit the map, the cookie of the server is known
   before it is needed, and the checked phase setter succeeds wherever the code calls it.
   */
  lemma DeadBranches(s: Initiator, tape: Tape, inputs: seq<Input>)
    requires Created(s)
    ensures var h := Run(Start(s), tape, inputs);
            h.live ==>
              && !h.state.common.identity.IsResponder?
              && (forall a :: a in h.state.responders ==> 2 <= a && h.state.responders[a].address == a)
              && (h.state.responder.Some? ==> 2 <= h.state.responder.value.address)
              && (h.state.common.server.sessionKey.Some? ==> h.state.common.server.link.theirCookie.Some?)
              && (h.state.common.server.handshake.ClientInfoSent? ==> SetPhase(h.state.common, PeerHandshake).Success?)
              && (h.state.common.server.handshake.ServerDone? ==> SetPhase(h.state.common, TaskPhase).Success?)
  {
    hide Run;
    RunsStayValid(s, tape, inputs);
    var h := Run(Start(s), tape, inputs);
    if h.live {
      forall a | a in h.state.responders ensures 2 <= a && h.state.responders[a].address == a {
        MapGives(h.state, tape, a);
      }
    }
  }

  // ---------- What the invariant means for the path ----------

  /** What a run does to the way responders are authenticated: nothing, or a token is spent. */
  lemma {:induction false} AuthStays(h: History, tape: Tape, inputs: seq<Input>)
    requires h.live ==> Valid(h.state, tape)
    ensures var k := Run(h, tape, inputs);
            h.live && k.live ==>
              k.state.common.auth == h.state.common.auth
                  || (SpendableToken(h.state.common) && k.state.common.auth.None?)
    decreases |inputs|
  {
    hide AcceptsToken;
    hide Next;
    hide Valid;
    hide HearingOf;
    if inputs != [] && h.live {
      NextFollows(h.state, tape, inputs[0]);
      AuthStays(Extend(h, tape, inputs[0]), tape, inputs[1..]);
    }
  }

  /**
   An initiator created with a token registers at most 252 responders, at most one of which has got past the token.
   */
  lemma UntrustedPath(s: Initiator, tape: Tape, inputs: seq<Input>)
    requires Created(s) && SpendableToken(s.common)
    ensures var h := Run(Start(s), tape, inputs);
            h.live ==>
              && |h.state.responders| <= MAX_RESPONDERS
              && (forall a, b :: a in h.state.responders && b in h.state.responders && a != b ==>
                    h.state.responders[a].handshake.ResponderNew? || h.state.responders[b].handshake.ResponderNew?)
  {
    hide Run;
    RunsStayValid(s, tape, inputs);
    CreatedIsValid(s, tape);
    AuthStays(Start(s), tape, inputs);
  }

  /** Created with a trusted key, it holds at most all 254 responders, and every context carries that key. */
  lemma TrustedPath(s: Initiator, tape: Tape, inputs: seq<Input>)
    requires Created(s) && Trusted(s.common)
    ensures var h := Run(Start(s), tape, inputs);
            h.live ==>
              && |h.state.responders| <= 254
              && (forall a :: a in h.state.responders ==>
                  h.state.responders[a].permanentKey == Some(s.common.auth.value.key))
              && (h.state.responder.Some? ==> h.state.responder.value.permanentKey == Some(s.common.auth.value.key))
  {
    hide Run;
    RunsStayValid(s, tape, inputs);
    CreatedIsValid(s, tape);
    AuthStays(Start(s), tape, inputs);
    var h := Run(Start(s), tape, inputs);
    if h.live {
      forall a | a in h.state.responders.Keys ensures 2 <= a < 256 { MapGives(h.state, tape, a); }
      BoundedSize(h.state.responders.Keys, 2, 256);
    }
  }
}
