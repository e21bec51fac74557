/** Relations between consecutive states that both roles share. */
module Progression {
  import opened Basics
  import opened Messages
  import opened Contexts
  import opened Signaling

  /** The server side of the invariant: phases, keys and the assigned identity go together. */
  ghost predicate CommonValid(c: Common) {
    && (c.phase.ServerHandshake? <==> !c.server.handshake.ServerDone?)
    && (c.server.handshake.ServerNew? <==> c.server.sessionKey.None?)
    && (!c.server.handshake.ServerNew? ==> c.server.link.theirCookie.Some?)
    && (c.server.handshake.ServerNew? ==> c.identity.Unknown?)
    && (c.server.handshake.ServerDone? ==> !c.identity.Unknown?)
    && (c.phase.TaskPhase? <==> c.task.Some?)
    && (c.task.Some? <==> c.taskTypes.Some?)
  }

  /**
   Phases and handshakes only move along legal edges; identity and task are set once; a token is spent, never
   regained.
   */
  ghost predicate CommonForward(c: Common, d: Common) {
    && d.permanent == c.permanent
    && (!c.identity.Unknown? ==> d.identity == c.identity)
    && LinkForward(c.server.link, d.server.link)
    && (c.phase == d.phase || MayTransition(c.phase, d.phase))
    && (c.server.handshake == d.server.handshake
        || (c.server.handshake.ServerNew? && d.server.handshake.ClientInfoSent?)
        || (c.server.handshake.ClientInfoSent? && d.server.handshake.ServerDone?))
    && (c.task.Some? ==> d.task == c.task)
    && (d.auth == c.auth || (SpendableToken(c) && d.auth.None?))
  }

  predicate SpendableToken(c: Common) {
    c.auth.Some? && c.auth.value.ByToken?
  }

  predicate Trusted(c: Common) {
    c.auth.Some? && c.auth.value.ByTrustedKey?
  }

  /** Our sequence number does not go back, our cookie stays, and so does what we know of the peer's cookie. */
  ghost predicate LinkForward(l: Link, k: Link) {
    && k.ourCookie == l.ourCookie
    && l.ourCsn.Number() <= k.ourCsn.Number()
    && (l.theirCookie.Some? ==> k.theirCookie == l.theirCookie)
  }

  ghost predicate NothingHeard(l: Link) {
    l.theirCsn.None? && l.theirCookie.None?
  }

  /** Validation touches only what we know of the peer. */
  ghost predicate LinkHeard(l: Link, k: Link) {
    && k.ourCookie == l.ourCookie
    && k.ourCsn == l.ourCsn
    && (l.theirCookie.Some? ==> k.theirCookie == l.theirCookie)
  }

  /** The nonce was issued on this link after `l` and no later than `k`. */
  ghost predicate NewOn(l: Link, k: Link, n: Nonce) {
    n.cookie == l.ourCookie && l.ourCsn.Number() < n.csn.Number() <= k.ourCsn.Number()
  }

  /** Replies that use the same cookie carry increasing sequence numbers. */
  ghost predicate Increasing(log: seq<Action>) {
    forall i, j :: 0 <= i < j < |log| && log[i].Reply? && log[j].Reply?
                   && log[i].box.nonce.cookie == log[j].box.nonce.cookie
                   ==> log[i].box.nonce.csn.Less(log[j].box.nonce.csn)
  }

  /** Validation of a common state: the identity may have been assigned and the server may have been heard. */
  ghost predicate CommonHeard(c: Common, d: Common) {
    && d == c.(identity := d.identity, server := c.server.(link := d.server.link))
    && LinkHeard(c.server.link, d.server.link)
    && (!c.identity.Unknown? ==> d.identity == c.identity)
    && (c.server.handshake.ServerNew? ==> d.identity == c.identity)
  }

  /** The first draws of a random source repeat no cookie, and none is the one for the server. */
  ghost predicate DistinctCookies(tape: Tape, server: Cookie, draws: nat) {
    && (forall m: nat, n: nat :: m < draws && n < draws && m != n ==> tape(m).cookie != tape(n).cookie)
    && (forall n: nat :: n < draws ==> tape(n).cookie != server)
  }

  lemma AdmitHears(l: Link, n: Nonce)
    ensures var (k, ok) := Admit(l, n);
            && LinkHeard(l, k)
            && (ok ==> k.theirCsn == Some(n.csn) && k.theirCookie == Some(n.cookie))
            && (ok && l.theirCsn.Some? ==> l.theirCsn.value.Less(n.csn))
            && (ok && l.theirCsn.None? ==> n.csn.overflow == 0)
            && (ok && l.theirCookie.Some? ==> l.theirCookie == Some(n.cookie))
            && (ok && l.theirCookie.None? ==> n.cookie != l.ourCookie)
  {
  }

  /** The shared checks on a server-auth message report an internal error only for a missing identity. */
  lemma ServerAuthCrash(c: Common, m: Message, nonce: Nonce)
    requires CommonValid(c) && m.ServerAuth? && !c.server.handshake.ServerNew?
    ensures var e := CheckServerAuth(c, m, nonce);
            if c.identity.Unknown? then e == Some(Crash(NoIdentity)) else e.Some? ==> !e.value.Crash?
  {
  }

  ghost predicate NoCrash(out: Outcome) {
    out.Err? ==> !out.error.Crash?
  }

  /** The outcome is the internal error named by the cause, or none if there is no cause. */
  ghost predicate CrashesExactly(out: Outcome, cause: Option<CrashSite>) {
    if cause.Some? then out == Err(Crash(cause.value)) else NoCrash(out)
  }
}
