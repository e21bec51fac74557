/** What every step of an initiator keeps. */
module InitiatorInvariants {
  import opened Basics
  import opened CombinedSequence
  import opened Messages
  import opened Boxes
  import opened Tasks
  import opened Negotiation
  import opened Contexts
  import opened Signaling
  import opened InitiatorProtocol
  import opened RunShape
  import opened Progression

  /** A context in the map: keyed by its address, numbered, drawn from the tape, its keys known as its state says. */
  ghost predicate ContextValid(r: ResponderContext, a: Address, counter: nat, tape: Tape) {
    && 2 <= a
    && r.address == a
    && r.counter < counter
    && r.keypair == tape(r.counter).keypair
    && r.link.ourCookie == tape(r.counter).cookie
    && (r.handshake.ResponderNew? || r.handshake.TokenReceived? || r.handshake.RKeySent?)
    && (r.permanentKey.Some? <==> !r.handshake.ResponderNew?)
    && (r.sessionKey.Some? <==> r.handshake.RKeySent?)
  }

  /** The context of the chosen responder. */
  ghost predicate ChosenValid(r: ResponderContext, counter: nat, tape: Tape) {
    && 2 <= r.address
    && r.counter < counter
    && r.keypair == tape(r.counter).keypair
    && r.link.ourCookie == tape(r.counter).cookie
    && r.handshake.RAuthSent?
    && r.permanentKey.Some?
    && r.sessionKey.Some?
    && r.link.theirCookie.Some?
  }

  ghost predicate MapValid(m: map<Address, ResponderContext>, counter: nat, tape: Tape) {
    && (forall a :: a in m ==> ContextValid(m[a], a, counter, tape))
    && (forall a, b :: a in m && b in m && a != b ==> m[a].counter != m[b].counter)
  }

  /**
   How the contexts stand to the way responders are authenticated: a trusted key is in every context; an unspent
   token has let nobody through; a spent token has let at most one responder through.
   */
  ghost predicate AuthValid(s: Initiator) {
    if Trusted(s.common) then
      && (forall a :: a in s.responders ==> s.responders[a].permanentKey == Some(s.common.auth.value.key))
      && (s.responder.Some? ==> s.responder.value.permanentKey == Some(s.common.auth.value.key))
    else
      && |s.responders| <= MAX_RESPONDERS
      && (SpendableToken(s.common) ==>
            s.responder.None? && forall a :: a in s.responders ==> s.responders[a].handshake.ResponderNew?)
      && (forall a, b :: a in s.responders && b in s.responders && a != b ==>
            s.responders[a].handshake.ResponderNew? || s.responders[b].handshake.ResponderNew?)
      && (s.responder.Some? ==> forall a :: a in s.responders ==> s.responders[a].handshake.ResponderNew?)
  }

  /** The invariant of an initiator between two messages. */
  ghost predicate Valid(s: Initiator, tape: Tape) {
    && CoreValid(s, tape)
    && (s.common.phase.ServerHandshake? ==> s.responders == map[] && s.counter == 0 && s.common.auth.Some?)
  }

  /** The part of the invariant that also holds while the responders of a server-auth message are being registered. */
  ghost predicate CoreValid(s: Initiator, tape: Tape) {
    && CommonValid(s.common)
    && !s.common.identity.IsResponder?
    && s.counter <= COUNTER_MAX
    && (s.common.phase.TaskPhase? <==> s.responder.Some?)
    && (s.common.phase.TaskPhase? ==> s.common.tasks.None?)
    && MapValid(s.responders, s.counter, tape)
    && (s.responder.Some? ==>
          && ChosenValid(s.responder.value, s.counter, tape)
          && forall a :: a in s.responders ==> s.responders[a].counter != s.responder.value.counter)
    && AuthValid(s)
  }

  /** The moves of a responder context's handshake state that are visible between messages. */
  predicate LegalMove(from: ResponderState, to: ResponderState) {
    || from == to
    || (from.ResponderNew? && to.TokenReceived?)
    || (from.TokenReceived? && to.RKeySent?)
    || (from.RKeySent? && to.RAuthSent?)
  }

  /** A context keeps its number, address and key pair, and the peer's keys once they are known. */
  ghost predicate ContextForward(r: ResponderContext, q: ResponderContext) {
    && q.counter == r.counter
    && q.address == r.address
    && q.keypair == r.keypair
    && LegalMove(r.handshake, q.handshake)
    && (r.permanentKey.Some? ==> q.permanentKey == r.permanentKey)
    && (r.sessionKey.Some? ==> q.sessionKey == r.sessionKey)
    && LinkForward(r.link, q.link)
  }

  /** Every context after the step is new or continues one from before; the winner comes out of the map. */
  ghost predicate Forward(s: Initiator, t: Initiator) {
    && CommonForward(s.common, t.common)
    && s.counter <= t.counter
    && (forall a :: a in t.responders && t.responders[a].counter < s.counter ==>
          a in s.responders && ContextForward(s.responders[a], t.responders[a]))
    && (s.responder.Some? ==> t.responder.Some? && ContextForward(s.responder.value, t.responder.value))
    && (s.responder.None? && t.responder.Some? ==>
          && t.responder.value.address in s.responders
          && ContextForward(s.responders[t.responder.value.address], t.responder.value))
  }

  // ---------- Nonces ----------

  ghost predicate Holds(s: Initiator, r: ResponderContext) {
    (r.address in s.responders && s.responders[r.address] == r) || s.responder == Some(r)
  }

  /** The nonce was issued on context `r`, and whatever became of it is at least as far. */
  ghost predicate IssuedOn(s: Initiator, t: Initiator, r: ResponderContext, n: Nonce) {
    && Holds(s, r)
    && n.cookie == r.link.ourCookie
    && r.link.ourCsn.Number() < n.csn.Number()
    && (forall q :: Holds(t, q) && q.counter == r.counter ==> n.csn.Number() <= q.link.ourCsn.Number())
  }

  ghost predicate Issued(s: Initiator, t: Initiator, n: Nonce) {
    NewOn(s.common.server.link, t.common.server.link, n) || exists r :: IssuedOn(s, t, r, n)
  }

  ghost predicate Emits(s: Initiator, tape: Tape, t: Initiator, actions: seq<Action>) {
    && (forall i :: 0 <= i < |actions| && actions[i].Reply? ==> Issued(s, t, actions[i].box.nonce))
    && (DistinctCookies(tape, s.common.server.link.ourCookie, s.counter) ==> Increasing(actions))
  }

  // ---------- What a box on the wire says about the initiator that sent it ----------

  ghost predicate SentBy(i: Initiator, tape: Tape, b: ByteBox) {
    && b.bytes.Sealed?
    && NonceFits(b)
    && (b.nonce.destination == 0 || (b.nonce.source == 1 && (KeyBox(i, tape, b) || SessionBox(i, tape, b))))
  }

  /** A key message carries the session key of one of our contexts and is sealed with our permanent key. */
  ghost predicate KeyBox(i: Initiator, tape: Tape, b: ByteBox)
    requires b.bytes.Sealed?
  {
    && b.bytes.x == i.common.permanent.id
    && exists n: nat :: n < i.counter && b.bytes.plain == Encode(Key(tape(n).keypair.Public()))
  }

  ghost predicate SessionBox(i: Initiator, tape: Tape, b: ByteBox)
    requires b.bytes.Sealed?
  {
    exists n: nat :: SealedInContext(i, tape, b, n)
  }

  /** Sealed with a session key of ours; anything that reads as an auth message only by the chosen context. */
  ghost predicate SealedInContext(i: Initiator, tape: Tape, b: ByteBox, n: nat)
    requires b.bytes.Sealed?
  {
    && n < i.counter
    && b.bytes.x == tape(n).keypair.id
    && (IsAuth(b) ==> AuthFromChosen(i, b, n))
  }

  ghost predicate AuthFromChosen(i: Initiator, b: ByteBox, n: nat)
    requires b.bytes.Sealed? && IsAuth(b)
  {
    && i.responder.Some? && i.common.task.Some?
    && i.responder.value.counter == n
    && i.responder.value.sessionKey == Some(PublicKey(b.bytes.y))
    && i.responder.value.link.theirCookie.Some?
    && b.nonce.destination == i.responder.value.address
    && b.nonce.cookie == i.responder.value.link.ourCookie
    && !Misnames(i, b.bytes.plain.message.value.auth)
  }

  /** The auth message repeats the cookie of the chosen responder and names a task that is not the chosen one. */
  predicate Misnames(i: Initiator, auth: Auth) {
    && i.responder.Some? && i.common.task.Some?
    && i.responder.value.link.theirCookie == Some(auth.yourCookie)
    && auth.task.Some? && auth.task.value != i.common.task.value.name
  }

  /** What the task sends reads as an auth message of ours for another task. */
  predicate Imitates(i: Initiator, input: Input) {
    input.SendTask? && input.reading.Some? && input.reading.value.AuthMsg? && Misnames(i, input.reading.value.auth)
  }

  ghost predicate Authored(t: Initiator, tape: Tape, actions: seq<Action>) {
    forall i :: 0 <= i < |actions| && actions[i].Reply? ==> SentBy(t, tape, actions[i].box)
  }

  /** What a successful step establishes about the state, its actions and its nonces. */
  ghost predicate Moves(s: Initiator, tape: Tape, t: Initiator, actions: seq<Action>) {
    && Valid(t, tape)
    && Forward(s, t)
    && Shape(s.common.phase, actions) == Some(t.common.phase)
    && Emits(s, tape, t, actions)
  }

  /** And what it establishes about the boxes it sends. */
  ghost predicate Follows(s: Initiator, tape: Tape, t: Initiator, actions: seq<Action>) {
    Moves(s, tape, t, actions) && Authored(t, tape, actions)
  }

  // ---------- Peer handshake handlers ----------

  /** Moving one context of the map forward keeps the map in order. */
  lemma ContextMoves(m: map<Address, ResponderContext>, a: Address, q: ResponderContext, counter: nat, tape: Tape)
    requires MapValid(m, counter, tape) && a in m
    requires ContextValid(q, a, counter, tape) && q.counter == m[a].counter
    ensures MapValid(m[a := q], counter, tape)
    ensures |m[a := q]| == |m|
  {
  }

  /** A handshake step of one responder, with or without spending the token. */
  lemma ContextSteps(s: Initiator, tape: Tape, a: Address, q: ResponderContext, spend: bool)
    requires Valid(s, tape) && s.common.phase.PeerHandshake? && a in s.responders
    requires ContextValid(q, a, s.counter, tape) && ContextForward(s.responders[a], q) && !q.handshake.ResponderNew?
    requires if spend then SpendableToken(s.common) else !s.responders[a].handshake.ResponderNew?
    ensures var t := s.(responders := s.responders[a := q],
                        common := if spend then s.common.(auth := None) else s.common);
            Valid(t, tape) && Forward(s, t)
  {
    hide MapValid;
    hide AuthValid;
    ContextMoves(s.responders, a, q, s.counter, tape);
    ContextKeepsAuth(s, a, q, spend);
  }

  lemma ContextKeepsAuth(s: Initiator, a: Address, q: ResponderContext, spend: bool)
    requires AuthValid(s) && a in s.responders && s.responder.None?
    requires ContextForward(s.responders[a], q) && !q.handshake.ResponderNew?
    requires if spend then SpendableToken(s.common) else !s.responders[a].handshake.ResponderNew?
    ensures AuthValid(s.(responders := s.responders[a := q],
                         common := if spend then s.common.(auth := None) else s.common))
  {
  }

  lemma TokenSteps(s: Initiator, tape: Tape, key: PublicKey, source: Address)
    requires Valid(s, tape) && s.common.phase.PeerHandshake? && source in s.responders
    requires s.responders[source].handshake.ResponderNew? && SpendableToken(s.common)
    ensures var h := HandleToken(s, key, source);
            NoCrash(h.out) && (h.out.Ok? ==> Follows(s, tape, h.state, h.out.actions))
  {
    hide AuthValid;
    hide MapValid;
    assert ContextValid(s.responders[source], source, s.counter, tape) by { MapGives(s, tape, source); }
    ContextSteps(s, tape, source, s.responders[source].(permanentKey := Some(key), handshake := TokenReceived), true);
  }

  lemma MapGives(s: Initiator, tape: Tape, a: Address)
    requires Valid(s, tape) && a in s.responders
    ensures ContextValid(s.responders[a], a, s.counter, tape)
  {
  }

  lemma KeySteps(s: Initiator, tape: Tape, key: PublicKey, source: Address)
    requires Valid(s, tape) && s.common.phase.PeerHandshake? && source in s.responders
    requires s.responders[source].handshake.TokenReceived?
    ensures var h := HandleKey(s, key, source);
            NoCrash(h.out) && (h.out.Ok? ==> Follows(s, tape, h.state, h.out.actions))
  {
    hide AuthValid;
    hide MapValid;
    hide Csn.Increment;
    var h := HandleKey(s, key, source);
    MapGives(s, tape, source);
    if h.out.Ok? {
      var a, r := h.out.actions, s.responders[source];
      ContextSteps(s, tape, source, h.state.responders[source], false);
      assert |a| == 1 && a[0].Reply?;
      ShapeOne(s.common.phase, a[0]);
      assert IssuedOn(s, h.state, r, a[0].box.nonce) by { OnlyContext(h.state, tape, source); }
      assert a[0].box.bytes.plain == Encode(Key(tape(r.counter).keypair.Public()));
    }
  }

  /** No other context shares the number of the one at `a`. */
  lemma OnlyContext(s: Initiator, tape: Tape, a: Address)
    requires Valid(s, tape) && a in s.responders
    ensures forall q :: Holds(s, q) && q.counter == s.responders[a].counter ==> q == s.responders[a]
  {
  }

  // ---------- Messages to the server ----------

  /** The reply is a drop-responder message for `id` on the server link. */
  ghost predicate IsDrop(c: Common, a: Action, id: Address, reason: U16) {
    && a.Reply?
    && a.box.nonce.destination == 0
    && a.box.nonce.cookie == c.server.link.ourCookie
    && c.server.sessionKey.Some?
    && a.box == Seal(Encode(DropResponder(id, Some(reason))), a.box.nonce, c.permanent, c.server.sessionKey.value)
  }

  /** Only our sequence number towards the server moved, from `c` to `d`, once per action. */
  ghost predicate ServerSent(c: Common, d: Common, actions: seq<Action>) {
    && d == c.(server := c.server.(link := c.server.link.(ourCsn := d.server.link.ourCsn)))
    && d.server.link.ourCsn.Number() == c.server.link.ourCsn.Number() + |actions|
    && (forall i :: 0 <= i < |actions| ==>
          && actions[i].Reply?
          && actions[i].box.bytes.Sealed?
          && NonceFits(actions[i].box)
          && actions[i].box.nonce.destination == 0
          && actions[i].box.nonce.cookie == c.server.link.ourCookie
          && actions[i].box.nonce.csn.Number() == c.server.link.ourCsn.Number() + i + 1)
  }

  lemma DropIsSent(c: Common, id: Address, reason: U16)
    requires c.server.sessionKey.Some?
    ensures var h := SendDrop(c, id, reason);
            if h.out.Ok? then
              && |h.out.actions| == 1 && IsDrop(c, h.out.actions[0], id, reason)
              && ServerSent(c, h.state, h.out.actions)
            else h.out == Err(CsnOverflow)
  {
  }

  lemma SameServer(c: Common, d: Common, actions: seq<Action>)
    requires ServerSent(c, d, actions)
    ensures d.permanent == c.permanent && d.server.sessionKey == c.server.sessionKey
    ensures d.server.link.ourCookie == c.server.link.ourCookie
  {
  }

  /** One drop-responder per address, in order, with consecutive numbers. */
  lemma {:induction false} AllAreDropped(c: Common, ids: seq<Address>)
    requires c.server.sessionKey.Some?
    ensures var h := DropAll(c, ids);
            if h.out.Ok? then
              && |h.out.actions| == |ids|
              && (forall i :: 0 <= i < |ids| ==> IsDrop(c, h.out.actions[i], ids[i], DROPPED_BY_INITIATOR))
              && ServerSent(c, h.state, h.out.actions)
            else h.out == Err(CsnOverflow)
  {
    hide SendDrop;
    if ids == [] {
    } else {
      hide ServerSent;
      var front, id := ids[..|ids| - 1], ids[|ids| - 1];
      AllAreDropped(c, front);
      var p := DropAll(c, front);
      if p.out.Ok? {
        SameServer(c, p.state, p.out.actions);
        DropIsSent(p.state, id, DROPPED_BY_INITIATOR);
        var q := SendDrop(p.state, id, DROPPED_BY_INITIATOR);
        if q.out.Ok? { ServerSentCompose(c, p.state, q.state, p.out.actions, q.out.actions); }
      }
    }
  }

  // ---------- Path cleaning ----------

  /** `r` is the context in its initial state with the least counter, if there is one. */
  ghost predicate IsOldest(m: map<Address, ResponderContext>, k: nat, oldest: Option<ResponderContext>) {
    if oldest.None? then forall b :: b in m && b < k ==> !m[b].handshake.ResponderNew?
    else
      && oldest.value.handshake.ResponderNew?
      && (exists b :: b in m && b < k && m[b] == oldest.value)
      && (forall b :: b in m && b < k && m[b].handshake.ResponderNew? ==> oldest.value.counter <= m[b].counter)
  }

  lemma {:induction false} OldestIsLeast(m: map<Address, ResponderContext>, k: nat)
    requires k <= 256
    ensures IsOldest(m, k, OldestBelow(m, k))
  {
    if k > 0 { OldestIsLeast(m, k - 1); }
  }

  /** A joining responder gets the next number; the map stays in order. */
  lemma JoinKeepsMap(m: map<Address, ResponderContext>, a: Address, q: ResponderContext, counter: nat, tape: Tape)
    requires MapValid(m, counter, tape)
    requires ContextValid(q, a, counter + 1, tape) && q.counter == counter
    ensures MapValid(m[a := q], counter + 1, tape) && |m[a := q]| <= |m| + 1
  {
  }

  lemma LeaveKeepsMap(m: map<Address, ResponderContext>, a: Address, counter: nat, tape: Tape)
    requires MapValid(m, counter, tape) && a in m
    ensures MapValid(m - {a}, counter, tape) && |m - {a}| == |m| - 1
  {
  }

  /** The state after a responder joined and before the path is cleaned. */
  ghost function Joined(s: Initiator, tape: Tape, a: Address): Initiator {
    s.(responders := s.responders[a := NewContext(s, a, tape(s.counter))], counter := s.counter + 1)
  }

  /** Cleaning the path after a responder joined: nothing, or exactly one old, inactive responder is dropped. */
  ghost predicate Cleaned(s: Initiator, tape: Tape, a: Address, t: Initiator, actions: seq<Action>) {
    var j := Joined(s, tape, a);
    if |j.responders| <= MAX_RESPONDERS || Trusted(s.common) then t == j && actions == []
    else
      && |actions| == 1
      && exists b :: b in j.responders && EvictedOldest(j, b, t) && b != a
                     && IsDrop(s.common, actions[0], b, DROPPED_BY_INITIATOR)
  }

  /** The evicted responder has sent nothing valid yet and is the oldest of that kind. */
  ghost predicate EvictedOldest(j: Initiator, b: Address, t: Initiator)
    requires b in j.responders
  {
    && t == j.(common := t.common, responders := j.responders - {b})
    && j.responders[b].handshake.ResponderNew?
    && (forall c :: c in j.responders && j.responders[c].handshake.ResponderNew? ==>
          j.responders[b].counter <= j.responders[c].counter)
  }

  lemma JoinedIsOrdered(s: Initiator, tape: Tape, a: Address)
    requires CoreValid(s, tape) && 2 <= a && s.counter < COUNTER_MAX
    ensures var m := Joined(s, tape, a).responders;
            && MapValid(m, s.counter + 1, tape)
            && |m| <= |s.responders| + 1
            && (forall b :: b in m && b != a ==> b in s.responders && m[b] == s.responders[b])
  {
    hide AuthValid;
    hide CommonValid;
    JoinKeepsMap(s.responders, a, NewContext(s, a, tape(s.counter)), s.counter, tape);
  }

  /** On an almost full path somebody besides the newcomer is still inactive, unless responders are trusted. */
  lemma SomebodyIsInactive(s: Initiator, tape: Tape, a: Address) returns (c: Address)
    requires CoreValid(s, tape) && 2 <= a && s.counter < COUNTER_MAX && !Trusted(s.common)
    requires |Joined(s, tape, a).responders| > MAX_RESPONDERS
    ensures c != a && c in s.responders && c in Joined(s, tape, a).responders && s.responders[c].handshake.ResponderNew?
  {
    hide CommonValid;
    var m := Joined(s, tape, a).responders;
    JoinedIsOrdered(s, tape, a);
    var others := m.Keys - {a};
    assert |others| == |m.Keys| - 1;
    c :| c in others;
    if !s.responders[c].handshake.ResponderNew? {
      var rest := others - {c};
      assert |rest| == |others| - 1;
      var d :| d in rest;
      c := d;
    }
  }

  /** In trusted runs nobody is inactive, so nobody can be evicted. */
  lemma TrustedAreActive(s: Initiator, tape: Tape, a: Address)
    requires CoreValid(s, tape) && 2 <= a && s.counter < COUNTER_MAX && Trusted(s.common)
    ensures OldestBelow(Joined(s, tape, a).responders, 256).None?
  {
    hide CommonValid;
    var m := Joined(s, tape, a).responders;
    OldestIsLeast(m, 256);
    JoinedIsOrdered(s, tape, a);
    forall b | b in m ensures !m[b].handshake.ResponderNew? {
      assert b != a ==> ContextValid(s.responders[b], b, s.counter, tape);
    }
  }

  /** The oldest inactive context is some responder other than the one that just joined. */
  lemma OldestIsAnother(s: Initiator, tape: Tape, a: Address) returns (b: Address)
    requires CoreValid(s, tape) && 2 <= a && s.counter < COUNTER_MAX && !Trusted(s.common)
    requires |Joined(s, tape, a).responders| > MAX_RESPONDERS
    ensures var m := Joined(s, tape, a).responders;
            && b != a && b in m && m[b].address == b
            && OldestBelow(m, 256) == Some(m[b])
            && m[b].handshake.ResponderNew?
            && (forall c :: c in m && m[c].handshake.ResponderNew? ==> m[b].counter <= m[c].counter)
  {
    hide CommonValid;
    hide AuthValid;
    var m := Joined(s, tape, a).responders;
    var c := SomebodyIsInactive(s, tape, a);
    JoinedIsOrdered(s, tape, a);
    OldestIsLeast(m, 256);
    assert m[c].handshake.ResponderNew? && c < 256;
    var oldest := OldestBelow(m, 256);
    b :| b in m && b < 256 && m[b] == oldest.value;
    assert ContextValid(m[b], b, s.counter + 1, tape);
    assert ContextValid(s.responders[c], c, s.counter, tape);
  }

  lemma PathIsCleaned(s: Initiator, tape: Tape, a: Address)
    requires CoreValid(s, tape) && s.common.server.sessionKey.Some? && 2 <= a
    ensures var h := ProcessNewResponder(s, a, tape);
            if h.out.Ok? then
              && s.counter < COUNTER_MAX && Cleaned(s, tape, a, h.state, h.out.actions)
              && ServerSent(s.common, h.state.common, h.out.actions)
            else h.out == Err(if s.counter == COUNTER_MAX then Crash(CounterOverflow) else CsnOverflow)
  {
    hide SendDrop;
    hide CommonValid;
    hide AuthValid;
    hide MapValid;
    if s.counter < COUNTER_MAX && |Joined(s, tape, a).responders| > MAX_RESPONDERS {
      if Trusted(s.common) {
        TrustedAreActive(s, tape, a);
      } else {
        var b := OldestIsAnother(s, tape, a);
        DropIsSent(s.common, b, DROPPED_BY_INITIATOR);
        var h := ProcessNewResponder(s, a, tape);
        assert h.out.Ok? ==> EvictedOldest(Joined(s, tape, a), b, h.state);
      }
    }
  }

  /** Sending to the server does not disturb the shared part of the invariant. */
  lemma ServerSentKeepsCommon(c: Common, d: Common, actions: seq<Action>)
    requires CommonValid(c) && ServerSent(c, d, actions)
    ensures CommonValid(d) && CommonForward(c, d)
    ensures forall i :: 0 <= i < |actions| ==> NewOn(c.server.link, d.server.link, actions[i].box.nonce)
    ensures Increasing(actions)
  {
  }

  /** After a join every context is the newcomer or one from before, and untrusted paths are kept below the limit. */
  ghost predicate JoinedMap(s: Initiator, tape: Tape, a: Address, t: Initiator) {
    && t.counter == s.counter + 1
    && t.responder == s.responder
    && (forall b :: b in t.responders && b != a ==> b in s.responders && t.responders[b] == s.responders[b])
    && (a in t.responders ==> t.responders[a] == NewContext(s, a, tape(s.counter)))
    && (!Trusted(s.common) ==> |t.responders| <= MAX_RESPONDERS)
  }

  lemma EvictedMap(s: Initiator, tape: Tape, a: Address, b: Address, t: Initiator)
    requires CoreValid(s, tape) && 2 <= a && s.counter < COUNTER_MAX && !Trusted(s.common)
    requires b in Joined(s, tape, a).responders && EvictedOldest(Joined(s, tape, a), b, t) && b != a
    ensures JoinedMap(s, tape, a, t) && MapValid(t.responders, t.counter, tape)
    ensures a in t.responders
  {
    hide CommonValid;
    hide MapValid;
    JoinedIsOrdered(s, tape, a);
    var j := Joined(s, tape, a);
    LeaveKeepsMap(j.responders, b, j.counter, tape);
  }

  lemma CleanedMap(s: Initiator, tape: Tape, a: Address, t: Initiator, actions: seq<Action>)
    requires CoreValid(s, tape) && 2 <= a && s.counter < COUNTER_MAX
    requires Cleaned(s, tape, a, t, actions)
    ensures JoinedMap(s, tape, a, t) && MapValid(t.responders, t.counter, tape)
    ensures a in t.responders
  {
    hide CommonValid;
    hide IsDrop;
    hide MapValid;
    hide AuthValid;
    JoinedIsOrdered(s, tape, a);
    var j := Joined(s, tape, a);
    if |j.responders| > MAX_RESPONDERS && !Trusted(s.common) {
      hide JoinedMap;
      hide EvictedOldest;
      var b :| b in j.responders && EvictedOldest(j, b, t) && b != a
          && IsDrop(s.common, actions[0], b, DROPPED_BY_INITIATOR);
      EvictedMap(s, tape, a, b, t);
    }
  }

  lemma JoinKeepsAuth(s: Initiator, tape: Tape, a: Address, t: Initiator)
    requires AuthValid(s) && JoinedMap(s, tape, a, t) && t.common.auth == s.common.auth
    ensures AuthValid(t)
  {
  }

  lemma JoinForward(s: Initiator, tape: Tape, a: Address, t: Initiator)
    requires MapValid(s.responders, s.counter, tape) && JoinedMap(s, tape, a, t) && CommonForward(s.common, t.common)
    ensures Forward(s, t)
  {
  }

  /** A joining responder, with path cleaning, keeps the invariant and every older context as it was. */
  lemma JoinSteps(s: Initiator, tape: Tape, a: Address, t: Initiator, actions: seq<Action>)
    requires CoreValid(s, tape) && 2 <= a && s.counter < COUNTER_MAX
    requires Cleaned(s, tape, a, t, actions) && ServerSent(s.common, t.common, actions)
    ensures CoreValid(t, tape) && Forward(s, t)
  {
    hide Cleaned;
    ServerSentKeepsCommon(s.common, t.common, actions);
    CleanedMap(s, tape, a, t, actions);
    JoinKeepsAuth(s, tape, a, t);
    JoinForward(s, tape, a, t);
    hide CommonValid;
    hide CommonForward;
    hide AuthValid;
    hide Forward;
  }

  /** Messages to the server are allowed in every phase and are ours. */
  lemma ServerSentFollows(s: Initiator, tape: Tape, t: Initiator, actions: seq<Action>)
    requires Valid(t, tape) && Forward(s, t) && CommonValid(s.common) && ServerSent(s.common, t.common, actions)
    ensures Follows(s, tape, t, actions)
  {
    hide Forward;
    hide CoreValid;
    ServerSentKeepsCommon(s.common, t.common, actions);
    RepliesKeepPhase(s.common.phase, actions);
  }

  lemma NewResponderSteps(s: Initiator, tape: Tape, a: Address)
    requires Valid(s, tape) && s.common.server.handshake.ServerDone? && 2 <= a
    ensures var h := ProcessNewResponder(s, a, tape);
            && (h.out.Ok? ==> Follows(s, tape, h.state, h.out.actions))
            && CrashesExactly(h.out, if s.counter == COUNTER_MAX then Some(CounterOverflow) else None)
  {
    hide ProcessNewResponder;
    hide Cleaned;
    hide AuthValid;
    hide MapValid;
    PathIsCleaned(s, tape, a);
    var h := ProcessNewResponder(s, a, tape);
    if h.out.Ok? {
      JoinSteps(s, tape, a, h.state, h.out.actions);
      ServerSentFollows(s, tape, h.state, h.out.actions);
    }
  }

  // ---------- Server-auth: registering the listed responders ----------

  /** The first listed responder that is retained: all of them if trusted, otherwise the last 252. */
  function FirstKept(c: Common, n: nat): nat {
    if Trusted(c) || n <= MAX_RESPONDERS then 0 else n - MAX_RESPONDERS
  }

  /** The map holds exactly the listed responders from index `w` on, numbered by their place in the list. */
  ghost predicate Kept(m: map<Address, ResponderContext>, order: seq<Address>, w: nat) {
    && w <= |order|
    && (forall k :: w <= k < |order| ==> order[k] in m && m[order[k]].counter == k)
    && (forall a :: a in m ==> InWindow(order, w, a))
  }

  ghost predicate InWindow(order: seq<Address>, w: nat, a: Address) {
    exists k :: w <= k < |order| && order[k] == a
  }

  /** One drop-responder for each of the first listed responders, in order. */
  ghost predicate DropsFirst(c: Common, order: seq<Address>, actions: seq<Action>) {
    |actions| <= |order| && forall i :: 0 <= i < |actions| ==> IsDrop(c, actions[i], order[i], DROPPED_BY_INITIATOR)
  }

  /** The listed responders split into dropped ones, in order, and retained contexts, numbered in order. */
  ghost predicate Split(s: Initiator, order: seq<Address>, t: Initiator, actions: seq<Action>) {
    && t.counter == |order|
    && t.responder == s.responder
    && |actions| == FirstKept(s.common, |order|)
    && DropsFirst(s.common, order, actions)
    && Kept(t.responders, order, |actions|)
    && ServerSent(s.common, t.common, actions)
  }

  lemma KeptSize(m: map<Address, ResponderContext>, order: seq<Address>, w: nat)
    requires Kept(m, order, w) && NoDup(order)
    ensures |m| == |order| - w
  {
    assert Lists(order[w..], m.Keys) by {
      forall a | a in m.Keys ensures a in order[w..] {
        assert InWindow(order, w, a);
        var k :| w <= k < |order| && order[k] == a;
        assert order[w..][k - w] == a;
      }
    }
    ListingLength(order[w..], m.Keys);
  }

  lemma KeptJoins(m: map<Address, ResponderContext>, order: seq<Address>, w: nat, q: ResponderContext)
    requires order != [] && NoDup(order)
    requires Kept(m, order[..|order| - 1], w) && q.counter == |order| - 1
    ensures order[|order| - 1] !in m && Kept(m[order[|order| - 1] := q], order, w)
  {
  }

  /** Removing the context with the least number removes the first of the window. */
  lemma KeptLeaves(m: map<Address, ResponderContext>, order: seq<Address>, w: nat, b: Address)
    requires NoDup(order) && Kept(m, order, w) && w < |order|
    requires b in m && m[b].counter <= m[order[w]].counter
    ensures b == order[w] && Kept(m - {b}, order, w + 1)
  {
  }

  lemma ServerSentCompose(c: Common, d: Common, e: Common, first: seq<Action>, second: seq<Action>)
    requires ServerSent(c, d, first) && ServerSent(d, e, second)
    ensures ServerSent(c, e, first + second)
  {
  }

  lemma SplitSize(s: Initiator, order: seq<Address>, t: Initiator, actions: seq<Action>)
    requires Split(s, order, t, actions) && NoDup(order)
    ensures |t.responders| == |order| - FirstKept(s.common, |order|)
  {
    hide ServerSent;
    hide IsDrop;
    KeptSize(t.responders, order, |actions|);
  }

  /** Beyond the limit the responder that has waited longest is dropped: the first one still in the window. */
  lemma SplitEvicts(p: Initiator, tape: Tape, order: seq<Address>, w: nat, b: Address, t: Initiator)
    requires order != [] && NoDup(order) && 2 <= order[|order| - 1] && w < |order| - 1
    requires CoreValid(p, tape) && p.counter == |order| - 1 < COUNTER_MAX && SpendableToken(p.common)
    requires Kept(p.responders, order[..|order| - 1], w)
    requires b in Joined(p, tape, order[|order| - 1]).responders
    requires EvictedOldest(Joined(p, tape, order[|order| - 1]), b, t)
    ensures b == order[w] && Kept(t.responders, order, w + 1)
  {
    hide CommonValid;
    hide MapValid;
    var a := order[|order| - 1];
    KeptJoins(p.responders, order, w, NewContext(p, a, tape(p.counter)));
    var j := Joined(p, tape, a);
    assert Kept(j.responders, order, w);
    assert order[w] in j.responders && order[w] == order[..|order| - 1][w];
    assert j.responders[order[w]].handshake.ResponderNew?;
    KeptLeaves(j.responders, order, w, b);
  }

  lemma DropsGrow(c: Common, d: Common, order: seq<Address>, before: seq<Action>, actions: seq<Action>)
    requires order != [] && DropsFirst(c, order[..|order| - 1], before) && ServerSent(c, d, before)
    requires actions == []
             || (|actions| == 1 && |before| < |order| && IsDrop(d, actions[0], order[|before|], DROPPED_BY_INITIATOR))
    ensures DropsFirst(c, order, before + actions)
  {
  }

  /** One more listed responder, with room left. */
  lemma SplitGrowsQuietly(s: Initiator, tape: Tape, order: seq<Address>, p: Initiator, before: seq<Action>)
    requires order != [] && NoDup(order)
    requires Split(s, order[..|order| - 1], p, before)
    requires Trusted(s.common) || |order| <= MAX_RESPONDERS
    ensures Split(s, order, Joined(p, tape, order[|order| - 1]), before)
  {
  }

  /** One more listed responder, on a full path. */
  lemma SplitGrowsEvicting(s: Initiator, tape: Tape, order: seq<Address>, p: Initiator, before: seq<Action>,
                           b: Address, t: Initiator, actions: seq<Action>)
    requires order != [] && NoDup(order) && 2 <= order[|order| - 1]
    requires SpendableToken(s.common) && SpendableToken(p.common) && |order| > MAX_RESPONDERS
    requires CoreValid(p, tape) && p.counter < COUNTER_MAX
    requires Split(s, order[..|order| - 1], p, before)
    requires b in Joined(p, tape, order[|order| - 1]).responders
    requires EvictedOldest(Joined(p, tape, order[|order| - 1]), b, t)
    requires |actions| == 1 && IsDrop(p.common, actions[0], b, DROPPED_BY_INITIATOR)
    requires ServerSent(p.common, t.common, actions)
    ensures Split(s, order, t, before + actions)
  {
    hide CoreValid;
    hide IsDrop;
    hide Kept;
    hide EvictedOldest;
    SplitEvicts(p, tape, order, |before|, b, t);
    EvictedKeeps(Joined(p, tape, order[|order| - 1]), b, t);
    ServerSentCompose(s.common, p.common, t.common, before, actions);
    DropsGrow(s.common, p.common, order, before, actions);
  }

  /** One more listed responder: it is retained, and beyond the limit the longest-waiting one is dropped. */
  lemma SplitGrows(s: Initiator, tape: Tape, order: seq<Address>, p: Initiator, before: seq<Action>,
                   t: Initiator, actions: seq<Action>)
    requires order != [] && NoDup(order) && 2 <= order[|order| - 1]
    requires s.common.auth.Some?
    requires CoreValid(p, tape) && p.counter < COUNTER_MAX
    requires Split(s, order[..|order| - 1], p, before)
    requires Cleaned(p, tape, order[|order| - 1], t, actions) && ServerSent(p.common, t.common, actions)
    ensures Split(s, order, t, before + actions)
  {
    hide CoreValid;
    hide IsDrop;
    hide Kept;
    hide EvictedOldest;
    var front, a := order[..|order| - 1], order[|order| - 1];
    SplitSize(s, front, p, before);
    KeptJoins(p.responders, order, |before|, NewContext(p, a, tape(p.counter)));
    var j := Joined(p, tape, a);
    assert j.responders.Keys == p.responders.Keys + {a};
    assert p.common.auth == s.common.auth;
    if |order| > MAX_RESPONDERS && !Trusted(s.common) {
      var b :| b in j.responders && EvictedOldest(j, b, t) && b != a
          && IsDrop(p.common, actions[0], b, DROPPED_BY_INITIATOR);
      SplitGrowsEvicting(s, tape, order, p, before, b, t, actions);
    } else {
      assert before + actions == before;
      SplitGrowsQuietly(s, tape, order, p, before);
    }
  }

  lemma EvictedKeeps(j: Initiator, b: Address, t: Initiator)
    requires b in j.responders && EvictedOldest(j, b, t)
    ensures t.counter == j.counter && t.responder == j.responder
  {
  }

  ghost predicate ResponderAddresses(order: seq<Address>) {
    NoDup(order) && forall i :: 0 <= i < |order| ==> 2 <= order[i]
  }

  lemma AtMost254(order: seq<Address>)
    requires ResponderAddresses(order)
    ensures |order| <= 254
  {
    var all := set a: Address | a in order;
    assert Lists(order, all);
    ListingLength(order, all);
    BoundedSize(all, 2, 256);
  }

  /**
   Server-auth conservation: whatever the iteration order, the listed responders split exactly into retained
   contexts and drop-responder messages.
   */
  lemma {:induction false} RegisterAllSplits(s: Initiator, tape: Tape, order: seq<Address>)
    requires Valid(s, tape) && s.common.phase.ServerHandshake? && s.common.server.sessionKey.Some?
    requires ResponderAddresses(order)
    ensures var h := RegisterAll(s, order, tape);
            if h.out.Ok? then CoreValid(h.state, tape) && Split(s, order, h.state, h.out.actions)
            else h.out == Err(CsnOverflow)
  {
    hide CoreValid;
    hide Split;
    hide ProcessNewResponder;
    hide Cleaned;
    AtMost254(order);
    if order == [] {
      SplitStarts(s, tape);
    } else {
      var front, a := order[..|order| - 1], order[|order| - 1];
      RegisterAllSplits(s, tape, front);
      var p := RegisterAll(s, front, tape);
      if p.out.Ok? {
        SplitCommon(s, front, p.state, p.out.actions);
        PathIsCleaned(p.state, tape, a);
        var q := ProcessNewResponder(p.state, a, tape);
        if q.out.Ok? {
          JoinSteps(p.state, tape, a, q.state, q.out.actions);
          SplitGrows(s, tape, order, p.state, p.out.actions, q.state, q.out.actions);
        }
      }
    }
  }

  lemma SplitStarts(s: Initiator, tape: Tape)
    requires Valid(s, tape) && s.common.phase.ServerHandshake?
    ensures CoreValid(s, tape) && Split(s, [], s, [])
  {
  }

  lemma SplitCommon(s: Initiator, order: seq<Address>, t: Initiator, actions: seq<Action>)
    requires Split(s, order, t, actions)
    ensures t.counter == |order| && t.common.server.sessionKey == s.common.server.sessionKey
            && t.common.auth == s.common.auth
    ensures ServerSent(s.common, t.common, actions) && t.responder == s.responder
  {
  }

  lemma ListingIsInRange(m: Message, order: IterOrder)
    requires m.ServerAuth? && ListingPasses(m)
    ensures ResponderAddresses(order(set a | a in m.responders.value))
  {
    var all := set a | a in m.responders.value;
    var q := order(all);
    assert Lists(q, all);
    forall i | 0 <= i < |q| ensures 2 <= q[i] {
      assert q[i] in all;
    }
  }

  lemma ServerAuthSteps(s: Initiator, tape: Tape, m: Message, nonce: Nonce, choice: Choice)
    requires Valid(s, tape) && s.common.server.handshake.ClientInfoSent? && m.ServerAuth?
    ensures var h := HandleServerAuth(s, m, nonce, tape, choice);
            && (h.out.Ok? ==> Follows(s, tape, h.state, h.out.actions))
            && CrashesExactly(h.out, if s.common.identity.Unknown? then Some(NoIdentity) else None)
  {
    hide RegisterAll;
    hide CheckServerAuth;
    hide AuthValid;
    hide MapValid;
    hide Split;
    ServerAuthCrash(s.common, m, nonce);
    if CheckServerAuth(s.common, m, nonce).None? && ListingPasses(m) {
      var order := choice.order(set a | a in m.responders.value);
      ListingIsInRange(m, choice.order);
      RegisterAllSplits(s, tape, order);
      var r := RegisterAll(s, order, tape);
      if r.out.Ok? {
        SplitCommon(s, order, r.state, r.out.actions);
        var h := HandleServerAuth(s, m, nonce, tape, choice);
        RegisteredFollows(s, tape, r.state, r.out.actions, h.state, m.responders.value == []);
      }
    }
  }

  lemma RegisteredFollows(s: Initiator, tape: Tape, r: Initiator, actions: seq<Action>, t: Initiator, flag: bool)
    requires Valid(s, tape) && s.common.server.handshake.ClientInfoSent? && !s.common.identity.Unknown?
    requires CoreValid(r, tape) && ServerSent(s.common, r.common, actions) && r.responder == s.responder
    requires t == r.(common := r.common.(phase := PeerHandshake, server := r.common.server.(handshake := ServerDone)))
    ensures Follows(s, tape, t, actions + [Notify(ServerHandshakeDone(flag))])
  {
    hide MapValid;
    ServerSentKeepsCommon(s.common, r.common, actions);
    NotifyLast(s.common.phase, actions + [Notify(ServerHandshakeDone(flag))]);
    assert AuthValid(t) by { assert AuthValid(r); }
  }

  /** A change that leaves phase, authentication, tasks and identity alone leaves the contexts in order. */
  lemma CommonMoves(s: Initiator, tape: Tape, d: Common)
    requires Valid(s, tape) && CommonValid(d) && CommonForward(s.common, d)
    requires d.phase == s.common.phase && d.auth == s.common.auth && d.tasks == s.common.tasks
    requires d.identity == s.common.identity
    ensures Valid(s.(common := d), tape) && Forward(s, s.(common := d))
  {
  }

  lemma HelloOnServerLink(c: Common, key: PublicKey)
    requires CommonValid(c) && c.server.handshake.ServerNew? && c.server.link.theirCookie.Some?
    ensures var h := HandleServerHello(c, false, key);
            && NoCrash(h.out)
            && (h.out.Ok? ==>
                  && CommonValid(h.state) && CommonForward(c, h.state)
                  && h.state.phase == c.phase && h.state.auth == c.auth && h.state.tasks == c.tasks
                  && h.state.identity == c.identity
                  && |h.out.actions| == 1 && h.out.actions[0].Reply?
                  && h.out.actions[0].box.bytes.Sealed? && h.out.actions[0].box.nonce.destination == 0
                  && NonceFits(h.out.actions[0].box)
                  && NewOn(c.server.link, h.state.server.link, h.out.actions[0].box.nonce))
  {
  }

  lemma HelloSteps(s: Initiator, tape: Tape, key: PublicKey)
    requires Valid(s, tape) && s.common.server.handshake.ServerNew? && s.common.server.link.theirCookie.Some?
    ensures var h := HandleServerHello(s.common, false, key);
            NoCrash(h.out) && (h.out.Ok? ==> Follows(s, tape, s.(common := h.state), h.out.actions))
  {
    hide HandleServerHello;
    HelloOnServerLink(s.common, key);
    var h := HandleServerHello(s.common, false, key);
    if h.out.Ok? {
      CommonMoves(s, tape, h.state);
      RepliesKeepPhase(s.common.phase, h.out.actions);
      hide Valid;
      hide Forward;
    }
  }

  /** A message we could not open: the responder is reported, its context stays. */
  lemma UndecryptableSteps(s: Initiator, tape: Tape, source: Address)
    requires Valid(s, tape) && s.common.server.sessionKey.Some?
    ensures var d := SendDrop(s.common, source, INITIATOR_COULD_NOT_DECRYPT);
            NoCrash(d.out) && (d.out.Ok? ==> Follows(s, tape, s.(common := d.state), d.out.actions))
  {
    hide SendDrop;
    DropIsSent(s.common, source, INITIATOR_COULD_NOT_DECRYPT);
    var d := SendDrop(s.common, source, INITIATOR_COULD_NOT_DECRYPT);
    if d.out.Ok? {
      ServerSentKeepsCommon(s.common, d.state, d.out.actions);
      CommonMoves(s, tape, d.state);
      ServerSentFollows(s, tape, s.(common := d.state), d.out.actions);
      hide Valid;
      hide Forward;
    }
  }

  // ---------- Auth: no shared task, or a winner ----------

  /** The state once the auth message of `source` has been taken up: its context and our task list are taken out. */
  ghost function TakenOut(s: Initiator, source: Address): Initiator {
    s.(responders := s.responders - {source}, common := s.common.(tasks := None))
  }

  lemma LeaveKeepsAuth(s: Initiator, source: Address)
    requires AuthValid(s) && source in s.responders
    ensures AuthValid(TakenOut(s, source))
  {
  }

  lemma TakenOutIsValid(s: Initiator, tape: Tape, source: Address)
    requires Valid(s, tape) && s.common.phase.PeerHandshake? && source in s.responders
    ensures var t := TakenOut(s, source); Valid(t, tape) && Forward(s, t)
  {
    hide MapValid;
    hide AuthValid;
    hide CommonValid;
    LeaveKeepsMap(s.responders, source, s.counter, tape);
    LeaveKeepsAuth(s, source);
    assert CommonValid(TakenOut(s, source).common) by { TaskListIsSeparate(s.common); }
    forall a | a in s.responders && a != source ensures ContextForward(s.responders[a], s.responders[a]) {}
  }

  lemma TaskListIsSeparate(c: Common)
    requires CommonValid(c)
    ensures CommonValid(c.(tasks := None))
  {
  }

  lemma CloseSteps(s: Initiator, tape: Tape, source: Address)
    requires Valid(s, tape) && s.common.phase.PeerHandshake? && source in s.responders
    requires s.responders[source].handshake.RKeySent?
    ensures Follows(s, tape, TakenOut(s, source), CloseWithoutTask(s.common, s.responders[source]))
  {
    hide Csn.Increment;
    hide AuthValid;
    hide MapValid;
    TakenOutIsValid(s, tape, source);
    MapGives(s, tape, source);
    var r, t := s.responders[source], TakenOut(s, source);
    var a := CloseWithoutTask(s.common, r);
    ShapeOne(s.common.phase, HandshakeError);
    if |a| == 2 {
      assert a == [a[0]] + [a[1]];
      ShapeOne(s.common.phase, a[0]);
      ShapeConcat(s.common.phase, [a[0]], [a[1]]);
      assert IssuedOn(s, t, r, a[0].box.nonce) by { OnlyContext(s, tape, source); GoneContext(s, tape, source); }
      assert SealedInContext(t, tape, a[0].box, r.counter);
    }
  }

  lemma GoneContext(s: Initiator, tape: Tape, source: Address)
    requires Valid(s, tape) && s.common.phase.PeerHandshake? && source in s.responders
    ensures forall q :: Holds(TakenOut(s, source), q) ==> q.counter != s.responders[source].counter
  {
  }

  /** The chosen responder's context, after the auth message was answered on link `l`. */
  ghost function Chosen(r: ResponderContext, l: Link): ResponderContext {
    r.(link := l, handshake := RAuthSent)
  }

  /** What selecting a winner means: everyone else is dropped, then the winner gets our auth, then we are done. */
  ghost predicate Won(s: Initiator, source: Address, task: Task, choice: Choice, t: Initiator, actions: seq<Action>)
    requires source in s.responders
  {
    var r, others := s.responders[source], choice.order(s.responders.Keys - {source});
    && |actions| == |others| + 2
    && (forall i :: 0 <= i < |others| ==> IsDrop(s.common, actions[i], others[i], DROPPED_BY_INITIATOR))
    && ServerSent(s.common, ServerAs(s.common, t.common), actions[..|others|])
    && actions[|others|].Reply?
    && AnswersWinner(s, r, task, t, actions[|others|].box)
    && actions[|others| + 1] == HandshakeDone
  }

  ghost function ServerAs(c: Common, d: Common): Common {
    c.(server := d.server)
  }

  ghost predicate AnswersWinner(s: Initiator, r: ResponderContext, task: Task, t: Initiator, b: ByteBox) {
    && r.link.theirCookie.Some? && r.sessionKey.Some?
    && t.responder.Some?
    && t.common == s.common.(phase := TaskPhase, tasks := None, task := Some(task), taskTypes := Some(task.types),
                             server := t.common.server)
    && t == Initiator(t.common, map[], Some(Chosen(r, t.responder.value.link)), s.counter)
    && t.responder.value.link == r.link.(ourCsn := b.nonce.csn)
    && b.nonce.csn.Number() == r.link.ourCsn.Number() + 1
    && b.nonce == Nonce(r.link.ourCookie, 1, r.address, b.nonce.csn)
    && b == Seal(Encode(AuthMsg(InitiatorAuth(r.link.theirCookie.value, task))), b.nonce, r.keypair, r.sessionKey.value)
  }

  /** Selecting a winner succeeds as described unless a sequence number runs out. */
  lemma WinnerIsAnswered(s: Initiator, tape: Tape, source: Address, task: Task, choice: Choice)
    requires Valid(s, tape) && s.common.phase.PeerHandshake? && source in s.responders
    requires s.responders[source].handshake.RKeySent? && s.responders[source].link.theirCookie.Some?
    ensures var h := SelectWinner(TakenOut(s, source), s.responders[source], task, choice);
            if h.out.Ok? then Won(s, source, task, choice, h.state, h.out.actions) else h.out == Err(CsnOverflow)
  {
    hide Csn.Increment;
    hide DropAll;
    hide AuthValid;
    hide MapValid;
    MapGives(s, tape, source);
    var c := TakenOut(s, source).common;
    var others := choice.order(s.responders.Keys - {source});
    assert (s.responders - {source}).Keys == s.responders.Keys - {source};
    AllAreDropped(c, others);
    var h := SelectWinner(TakenOut(s, source), s.responders[source], task, choice);
    if h.out.Ok? {
      assert h.out.actions[..|others|] == DropAll(c, others).out.actions;
    }
  }

  lemma WinnerIsValid(s: Initiator, tape: Tape, source: Address, task: Task, t: Initiator, b: ByteBox)
    requires Valid(s, tape) && s.common.phase.PeerHandshake? && source in s.responders
    requires s.responders[source].handshake.RKeySent?
    requires AnswersWinner(s, s.responders[source], task, t, b)
    requires exists drops :: ServerSent(s.common, ServerAs(s.common, t.common), drops)
    ensures Valid(t, tape) && Forward(s, t)
  {
  }

  /** The drop messages at the front of a winning step. */
  lemma WonDrops(s: Initiator, source: Address, task: Task, choice: Choice, t: Initiator, actions: seq<Action>)
    requires source in s.responders && Won(s, source, task, choice, t, actions)
    ensures forall i :: 0 <= i < |actions| - 2 ==>
              && actions[i].Reply?
              && actions[i].box.bytes.Sealed?
              && NonceFits(actions[i].box)
              && actions[i].box.nonce.destination == 0
              && actions[i].box.nonce.cookie == s.common.server.link.ourCookie
              && actions[i].box.nonce.csn.Number() == s.common.server.link.ourCsn.Number() + i + 1
              && NewOn(s.common.server.link, t.common.server.link, actions[i].box.nonce)
  {
  }

  /** The auth message of a winning step. */
  lemma WonAuth(s: Initiator, tape: Tape, source: Address, task: Task, t: Initiator, b: ByteBox)
    requires source in s.responders && ContextValid(s.responders[source], source, s.counter, tape)
    requires AnswersWinner(s, s.responders[source], task, t, b)
    ensures IssuedOn(s, t, s.responders[source], b.nonce)
    ensures b.nonce.cookie == tape(s.responders[source].counter).cookie
    ensures SentBy(t, tape, b)
  {
    assert SealedInContext(t, tape, b, s.responders[source].counter);
  }

  lemma WonFollows(s: Initiator, tape: Tape, source: Address, task: Task, choice: Choice, t: Initiator,
                   actions: seq<Action>)
    requires Valid(s, tape) && s.common.phase.PeerHandshake? && source in s.responders
    requires s.responders[source].handshake.RKeySent?
    requires Won(s, source, task, choice, t, actions)
    ensures Follows(s, tape, t, actions)
  {
    hide AuthValid;
    hide MapValid;
    hide Forward;
    hide IsDrop;
    hide ServerSent;
    hide IssuedOn;
    var n := |actions| - 2;
    var r, auth := s.responders[source], actions[n].box;
    MapGives(s, tape, source);
    WinnerIsValid(s, tape, source, task, t, auth);
    WonDrops(s, source, task, choice, t, actions);
    WonAuth(s, tape, source, task, t, auth);
    hide AnswersWinner;
    WonIsShaped(s.common.phase, actions);
    forall i | 0 <= i < |actions| && actions[i].Reply?
      ensures Issued(s, t, actions[i].box.nonce) && SentBy(t, tape, actions[i].box)
    {
      if i < n { assert NewOn(s.common.server.link, t.common.server.link, actions[i].box.nonce); }
    }
  }

  lemma WonIsShaped(p: SignalingState, actions: seq<Action>)
    requires p.PeerHandshake? && |actions| >= 2
    requires forall i :: 0 <= i < |actions| - 1 ==> actions[i].Reply?
    requires actions[|actions| - 1] == HandshakeDone
    ensures Shape(p, actions) == Some(TaskPhase)
  {
    RepliesKeepPhase(p, actions[..|actions| - 1]);
  }

  lemma AuthSteps(s: Initiator, tape: Tape, auth: Auth, source: Address, choice: Choice)
    requires Valid(s, tape) && s.common.phase.PeerHandshake? && source in s.responders
    requires s.responders[source].handshake.RKeySent? && s.responders[source].link.theirCookie.Some?
    ensures var h := HandleAuth(s, auth, source, choice);
            && (h.out.Ok? ==> Follows(s, tape, h.state, h.out.actions))
            && CrashesExactly(h.out, if AuthWithoutTasks(s, auth, source) then Some(NoTasks) else None)
  {
    hide SelectWinner;
    hide CloseWithoutTask;
    hide Won;
    hide Follows;
    hide Valid;
    if auth.yourCookie == s.responders[source].link.ourCookie && ProposalPasses(auth) && s.common.tasks.Some? {
      assert CloseWithoutTask(TakenOut(s, source).common, s.responders[source])
             == CloseWithoutTask(s.common, s.responders[source])
        by { CloseIgnoresTasks(s.common, s.responders[source]); }
      CloseSteps(s, tape, source);
      ChooseSharedIsFirst(s.common.tasks.value, auth.tasks.value);
      var c := ChooseShared(s.common.tasks.value, auth.tasks.value);
      if c.Some? {
        WinnerIsAnswered(s, tape, source, c.value, choice);
        var w := SelectWinner(TakenOut(s, source), s.responders[source], c.value, choice);
        if w.out.Ok? { WonFollows(s, tape, source, c.value, choice, w.state, w.out.actions); }
      }
    }
  }

  /** A well-formed auth message that arrives after our task list was used up by an earlier one. */
  ghost predicate AuthWithoutTasks(s: Initiator, auth: Auth, source: Address)
    requires source in s.responders
  {
    auth.yourCookie == s.responders[source].link.ourCookie && ProposalPasses(auth) && s.common.tasks.None?
  }

  lemma CloseIgnoresTasks(c: Common, r: ResponderContext)
    ensures CloseWithoutTask(c.(tasks := None), r) == CloseWithoutTask(c, r)
  {
  }

  // ---------- Task phase ----------

  lemma TaskSteps(s: Initiator, tape: Tape, b: ByteBox)
    requires Valid(s, tape) && s.common.phase.TaskPhase? && b.nonce.source != 0
    ensures var h := HandleTaskPeer(s, b);
            NoCrash(h.out) && h.state == s && (h.out.Ok? ==> Follows(s, tape, h.state, h.out.actions))
  {
    hide FieldsOf;
    hide AuthValid;
    var h := HandleTaskPeer(s, b);
    if h.out.Ok? {
      assert h.out.actions == [] || (|h.out.actions| == 1 && h.out.actions[0].TaskAction?);
      if h.out.actions != [] { ShapeOne(s.common.phase, h.out.actions[0]); }
      StaysFollows(s, tape, h.out.actions);
    }
  }

  /** A step that changes nothing and sends nothing. */
  lemma StaysFollows(s: Initiator, tape: Tape, actions: seq<Action>)
    requires Valid(s, tape) && Shape(s.common.phase, actions) == Some(s.common.phase)
    requires forall i :: 0 <= i < |actions| ==> !actions[i].Reply?
    ensures Follows(s, tape, s, actions)
  {
  }

  lemma SendSteps(s: Initiator, tape: Tape, plain: Plain)
    requires Valid(s, tape)
    ensures var h := SendPeer(s, plain);
            && (h.out.Ok? ==> Moves(s, tape, h.state, h.out.actions))
            && (h.out.Ok? && !(ReadsAsAuth(plain) && Misnames(s, plain.message.value.auth)) ==>
                  Authored(h.state, tape, h.out.actions))
            && CrashesExactly(h.out, if !s.common.phase.TaskPhase? then Some(NotInTaskState) else None)
  {
    hide Csn.Increment;
    hide AuthValid;
    hide MapValid;
    var h := SendPeer(s, plain);
    if h.out.Ok? {
      var a, r := h.out.actions, s.responder.value;
      assert |a| == 1 && a[0].Reply?;
      ShapeOne(s.common.phase, a[0]);
      ChosenMoves(s, tape, h.state.responder.value);
      assert h.state == s.(responder := h.state.responder);
      assert IssuedOn(s, h.state, r, a[0].box.nonce);
      if !(ReadsAsAuth(plain) && Misnames(s, plain.message.value.auth)) {
        assert SealedInContext(h.state, tape, a[0].box, r.counter);
      }
    }
  }

  lemma ChosenMoves(s: Initiator, tape: Tape, q: ResponderContext)
    requires Valid(s, tape) && s.responder.Some? && ChosenValid(q, s.counter, tape)
    requires ContextForward(s.responder.value, q)
    ensures var t := s.(responder := Some(q)); Valid(t, tape) && Forward(s, t)
    ensures forall p :: Holds(s.(responder := Some(q)), p) && p.counter == q.counter ==> p == q
  {
  }

  // ---------- Validation ----------

  /** A validated or dropped message leaves the state as it was, but for the identity and what we know of one peer. */
  ghost predicate Heard(s: Initiator, t: Initiator) {
    && CommonHeard(s.common, t.common)
    && t.counter == s.counter
    && t.responders.Keys == s.responders.Keys
    && (forall a :: a in s.responders ==> ContextHeard(s.responders[a], t.responders[a]))
    && (if s.responder.None? then t.responder.None?
        else t.responder.Some? && ContextHeard(s.responder.value, t.responder.value))
  }

  ghost predicate ContextHeard(r: ResponderContext, q: ResponderContext) {
    q == r.(link := q.link) && LinkHeard(r.link, q.link)
  }

  lemma HeardIsValid(s: Initiator, tape: Tape, t: Initiator)
    requires Valid(s, tape) && Heard(s, t) && !t.common.identity.IsResponder?
    ensures Valid(t, tape)
  {
    HeardMap(s, tape, t);
    hide MapValid;
    HeardAuth(s, t);
    hide AuthValid;
    if t.responder.Some? {
      forall a | a in t.responders ensures t.responders[a].counter != t.responder.value.counter {
        assert ContextHeard(s.responders[a], t.responders[a]);
      }
    }
    if s.responders == map[] { assert t.responders == map[]; }
  }

  lemma HeardMap(s: Initiator, tape: Tape, t: Initiator)
    requires MapValid(s.responders, s.counter, tape) && Heard(s, t)
    ensures MapValid(t.responders, t.counter, tape)
  {
  }

  lemma HeardAuth(s: Initiator, t: Initiator)
    requires AuthValid(s) && Heard(s, t)
    ensures AuthValid(t)
  {
  }

  lemma ValidationHears(s: Initiator, tape: Tape, n: Nonce)
    requires Valid(s, tape)
    ensures var (t, v) := ValidateNonce(s, n);
            && !v.CrashWith?
            && (v.Accept? || v.DropMsg? ==> Heard(s, t) && !t.common.identity.IsResponder?)
            && (v.Accept? ==>
                  && n.source != 1
                  && PeerLink(t, n.source).Some?
                  && PeerLink(t, n.source).value.theirCookie.Some?
                  && (n.source != 0 ==> !t.common.phase.ServerHandshake?))
  {
    hide Admit;
    hide AuthValid;
    hide MapValid;
    var s1 := ValidateDestination(s, n).0;
    if PeerLink(s1, n.source).Some? { AdmitHears(PeerLink(s1, n.source).value, n); }
  }

  /** What a handler does to a validated state, the whole step does to the state before. */
  lemma HeardThenForward(s: Initiator, t: Initiator, u: Initiator)
    requires Heard(s, t) && Forward(t, u)
    ensures Forward(s, u)
  {
  }

  lemma HeardThenIssued(s: Initiator, tape: Tape, t: Initiator, u: Initiator, n: Nonce)
    requires Valid(s, tape) && Heard(s, t) && Issued(t, u, n)
    ensures Issued(s, u, n)
  {
    if !NewOn(t.common.server.link, u.common.server.link, n) {
      var r :| IssuedOn(t, u, r, n);
      if r.address in t.responders && t.responders[r.address] == r {
        assert ContextHeard(s.responders[r.address], r);
        assert IssuedOn(s, u, s.responders[r.address], n);
      } else {
        assert IssuedOn(s, u, s.responder.value, n);
      }
    }
  }

  lemma HeardThenFollows(s: Initiator, tape: Tape, t: Initiator, u: Initiator, actions: seq<Action>)
    requires Valid(s, tape) && Heard(s, t) && Follows(t, tape, u, actions)
    ensures Follows(s, tape, u, actions)
  {
    hide Valid;
    hide Issued;
    HeardThenForward(s, t, u);
    hide Forward;
    forall i | 0 <= i < |actions| && actions[i].Reply? ensures Issued(s, u, actions[i].box.nonce) {
      HeardThenIssued(s, tape, t, u, actions[i].box.nonce);
    }
  }

  // ---------- The whole step ----------

  /** The internal error a peer's handshake message leads to. */
  ghost function PeerCrash(s: Initiator, b: ByteBox): Option<CrashSite> {
    if b.nonce.source !in s.responders then None
    else
      var r := s.responders[b.nonce.source];
      // somebody else has used the token already
      if r.handshake.ResponderNew? && s.common.auth.None? then Some(NewWithoutAuthProvider)
      // a second auth message after the tasks were used up by one that shared none
      else if r.handshake.RKeySent? && r.sessionKey.Some? then
        var m := OpenMessage(b, r.keypair, r.sessionKey.value);
        if m.Some? && m.value.AuthMsg? && AuthWithoutTasks(s, m.value.auth, b.nonce.source) then Some(NoTasks) else None
      else None
  }

  ghost function ServerCrash(s: Initiator, m: Message): Option<CrashSite> {
    if s.common.server.handshake.ClientInfoSent? && m.ServerAuth? && s.common.identity.Unknown? then Some(NoIdentity)
    else if s.common.server.handshake.ServerDone? && m.NewResponder? && 2 <= m.id && s.counter == COUNTER_MAX then
      Some(CounterOverflow)
    else if s.common.server.handshake.ServerDone? && m.DropResponder? then Some(Unimplemented)
    else None
  }

  /** The internal error an input leads to, read off the state before and the input alone. */
  ghost function CrashCause(s: Initiator, input: Input): Option<CrashSite> {
    if !input.Receive? then if s.common.phase.TaskPhase? then None else Some(NotInTaskState)
    else
      var (t, v) := ValidateNonce(s, input.box.nonce);
      if !v.Accept? then None
      else if input.box.nonce.source == 0 then
        var m := DecodeServer(t.common, input.box);
        if m.Success? then ServerCrash(t, m.value) else None
      else if t.common.phase.TaskPhase? then None
      else PeerCrash(t, input.box)
  }

  lemma PeerMessageSteps(s: Initiator, tape: Tape, b: ByteBox, choice: Choice)
    requires Valid(s, tape) && s.common.phase.PeerHandshake? && 2 <= b.nonce.source && b.nonce.source in s.responders
    requires s.responders[b.nonce.source].link.theirCookie.Some?
    ensures var h := HandleHandshakePeer(s, b, choice);
            && (h.out.Ok? ==> Follows(s, tape, h.state, h.out.actions))
            && CrashesExactly(h.out, PeerCrash(s, b))
  {
    hide HandleToken;
    hide HandleKey;
    hide HandleAuth;
    hide Follows;
    hide MapValid;
    hide SendDrop;
    hide ProposalPasses;
    var source := b.nonce.source;
    MapGives(s, tape, source);
    UndecryptableSteps(s, tape, source);
    var d := DecodePeer(s, b);
    if d.Success? {
      if s.responders[source].handshake.ResponderNew? && d.value.Token? {
        TokenSteps(s, tape, d.value.key, source);
      } else if s.responders[source].handshake.TokenReceived? && d.value.Key? {
        KeySteps(s, tape, d.value.key, source);
      } else if s.responders[source].handshake.RKeySent? && d.value.AuthMsg? {
        AuthSteps(s, tape, d.value.auth, source, choice);
      }
    }
  }

  lemma ServerMessageSteps(s: Initiator, tape: Tape, m: Message, nonce: Nonce, choice: Choice)
    requires Valid(s, tape) && s.common.server.link.theirCookie.Some?
    ensures var h := HandleServerMessage(s, m, nonce, tape, choice);
            && (h.out.Ok? ==> Follows(s, tape, h.state, h.out.actions))
            && CrashesExactly(h.out, ServerCrash(s, m))
  {
    hide HandleServerAuth;
    hide ProcessNewResponder;
    hide HandleServerHello;
    hide MapValid;
    hide AuthValid;
    hide Follows;
    if s.common.server.handshake.ServerNew? && m.ServerHello? {
      HelloSteps(s, tape, m.key);
    } else if s.common.server.handshake.ClientInfoSent? && m.ServerAuth? {
      ServerAuthSteps(s, tape, m, nonce, choice);
    } else if s.common.server.handshake.ServerDone? && m.NewResponder? && 2 <= m.id {
      NewResponderSteps(s, tape, m.id);
    } else if s.common.server.handshake.ServerDone? && m.Disconnected? && 2 <= m.id {
      ShapeOne(s.common.phase, Notify(PeerDisconnected(m.id)));
      StaysFollows(s, tape, [Notify(PeerDisconnected(m.id))]);
    }
  }

  lemma ValidMessageSteps(s: Initiator, tape: Tape, b: ByteBox, choice: Choice)
    requires Valid(s, tape) && b.nonce.source != 1
    requires PeerLink(s, b.nonce.source).Some? && PeerLink(s, b.nonce.source).value.theirCookie.Some?
    requires b.nonce.source != 0 ==> !s.common.phase.ServerHandshake?
    ensures var h := HandleValid(s, b, tape, choice);
            && (h.out.Ok? ==> Follows(s, tape, h.state, h.out.actions))
            && CrashesExactly(h.out,
                 if b.nonce.source == 0 then
                   (var m := DecodeServer(s.common, b); if m.Success? then ServerCrash(s, m.value) else None)
                 else if s.common.phase.TaskPhase? then None
                 else PeerCrash(s, b))
  {
    hide HandleHandshakePeer;
    hide HandleTaskPeer;
    hide HandleServerMessage;
    hide Follows;
    hide PeerCrash;
    hide ServerCrash;
    hide MapValid;
    hide AuthValid;
    if b.nonce.source == 0 {
      var m := DecodeServer(s.common, b);
      if m.Success? { ServerMessageSteps(s, tape, m.value, b.nonce, choice); }
    } else if s.common.phase.TaskPhase? {
      TaskSteps(s, tape, b);
    } else {
      PeerMessageSteps(s, tape, b, choice);
    }
  }

  /**
   Every successful step keeps the invariant, moves forward and, unless a task imitates us, sends only what it may.
   */
  lemma NextFollows(s: Initiator, tape: Tape, input: Input)
    requires Valid(s, tape)
    ensures var h := Next(s, tape, input);
            && (h.out.Ok? ==> Moves(s, tape, h.state, h.out.actions))
            && (h.out.Ok? && !Imitates(s, input) ==> Authored(h.state, tape, h.out.actions))
  {
    hide Moves;
    hide Authored;
    hide SendPeer;
    hide ValidateNonce;
    hide HandleValid;
    hide Valid;
    match input
    case SendTask(value, reading) => SendSteps(s, tape, EncodeValue(value, reading));
    case SendClose(code) => SendSteps(s, tape, Encode(Close(code.AsNumber())));
    case Receive(b, choice) =>
      ValidationHears(s, tape, b.nonce);
      var (t, v) := ValidateNonce(s, b.nonce);
      if v.Accept? {
        HeardIsValid(s, tape, t);
        ValidMessageSteps(t, tape, b, choice);
        var h := HandleValid(t, b, tape, choice);
        if h.out.Ok? { HeardThenFollows(s, tape, t, h.state, h.out.actions); }
      } else if v.DropMsg? {
        HeardIsValid(s, tape, t);
        StaysFollows(t, tape, []);
        HeardThenFollows(s, tape, t, t, []);
      }
  }

  /** Which internal errors can occur, and exactly when: every other crash branch of the code is dead. */
  lemma CrashesOnlyByCause(s: Initiator, tape: Tape, input: Input)
    requires Valid(s, tape)
    ensures CrashesExactly(Next(s, tape, input).out, CrashCause(s, input))
  {
    hide SendPeer;
    hide ValidateNonce;
    hide HandleValid;
    hide Follows;
    hide Valid;
    hide PeerCrash;
    hide ServerCrash;
    match input
    case SendTask(value, reading) => SendSteps(s, tape, EncodeValue(value, reading));
    case SendClose(code) => SendSteps(s, tape, Encode(Close(code.AsNumber())));
    case Receive(b, choice) =>
      ValidationHears(s, tape, b.nonce);
      var (t, v) := ValidateNonce(s, b.nonce);
      if v.Accept? {
        HeardIsValid(s, tape, t);
        ValidMessageSteps(t, tape, b, choice);
      }
  }
}
