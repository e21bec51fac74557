/**
 The nonces a client hands out and the nonces it accepts, over a whole run. A client is seen
 here only as the set of links it currently holds; contexts come and go, each with a cookie of its own.
 */
module Ledger {
  import opened Basics
  import opened Messages
  import opened Contexts
  import opened Signaling
  import opened Progression

  /** A nonce that passed validation, with our own cookie towards the peer it came from. */
  datatype Hearing = Hearing(context: Cookie, nonce: Nonce)

  /** A cookie that has been in use: the one towards the server, or one of the first `draws` drawn. */
  ghost predicate Known(c: Cookie, tape: Tape, server: Cookie, draws: nat) {
    c == server || exists n: nat :: n < draws && c == tape(n).cookie
  }

  /**
   No replay: within one context the accepted nonces carry one cookie, different from ours, and strictly
   increasing sequence numbers that start with overflow zero.
   */
  ghost predicate NoReplay(heard: seq<Hearing>) {
    && (forall i, j :: 0 <= i < j < |heard| && heard[i].context == heard[j].context ==>
          heard[i].nonce.csn.Less(heard[j].nonce.csn) && heard[i].nonce.cookie == heard[j].nonce.cookie)
    && (forall i :: 0 <= i < |heard| ==> heard[i].nonce.cookie != heard[i].context)
    && (forall i :: 0 <= i < |heard| ==> heard[i].nonce.csn.overflow == 0 || HeardBefore(heard, i))
  }

  ghost predicate HeardBefore(heard: seq<Hearing>, i: int)
    requires 0 <= i < |heard|
  {
    exists j :: 0 <= j < i && heard[j].context == heard[i].context
  }

  /** Every link is at least as far as the nonces issued on it and the nonces accepted on it. */
  ghost predicate Covers(links: set<Link>, tape: Tape, server: Cookie, draws: nat, log: seq<Action>,
                         heard: seq<Hearing>) {
    && (forall i :: 0 <= i < |log| && log[i].Reply? ==> Known(log[i].box.nonce.cookie, tape, server, draws))
    && (forall i, l :: 0 <= i < |log| && log[i].Reply? && l in links && log[i].box.nonce.cookie == l.ourCookie ==>
          log[i].box.nonce.csn.Number() <= l.ourCsn.Number())
    && (forall i :: 0 <= i < |heard| ==> Known(heard[i].context, tape, server, draws))
    && (forall i, l :: 0 <= i < |heard| && l in links && heard[i].context == l.ourCookie ==> Reached(l, heard[i].nonce))
    && (forall l :: l in links && (l.theirCsn.Some? || l.theirCookie.Some?) ==>
          exists i :: 0 <= i < |heard| && heard[i].context == l.ourCookie)
  }

  ghost predicate Reached(l: Link, n: Nonce) {
    && l.theirCsn.Some?
    && n.csn.Number() <= l.theirCsn.value.Number()
    && l.theirCookie == Some(n.cookie)
  }

  /** A link after a step: further along with our numbers, and with the peer's exactly if it was heard. */
  ghost predicate Evolves(l: Link, k: Link, hearing: Option<Hearing>) {
    && k.ourCookie == l.ourCookie
    && l.ourCsn.Number() <= k.ourCsn.Number()
    && (if hearing.Some? && hearing.value.context == l.ourCookie
        then k.theirCsn == Some(hearing.value.nonce.csn) && k.theirCookie == Some(hearing.value.nonce.cookie)
        else k.theirCsn == l.theirCsn && k.theirCookie == l.theirCookie)
  }

  /** A link that did not exist before the step. */
  ghost predicate Unused(k: Link, tape: Tape, server: Cookie, draws: nat) {
    !Known(k.ourCookie, tape, server, draws) && k.theirCsn.None? && k.theirCookie.None?
  }

  ghost predicate LinksEvolve(links: set<Link>, links': set<Link>, tape: Tape, server: Cookie, draws: nat,
                              hearing: Option<Hearing>) {
    forall k :: k in links' ==> Unused(k, tape, server, draws) || exists l :: l in links && Evolves(l, k, hearing)
  }

  /** Every nonce handed out is new on a link held before or belongs to a context created in this step. */
  ghost predicate Issues(links: set<Link>, links': set<Link>, tape: Tape, server: Cookie, draws: nat, draws': nat,
                         actions: seq<Action>) {
    && Increasing(actions)
    && (forall i :: 0 <= i < |actions| && actions[i].Reply? ==>
          && Known(actions[i].box.nonce.cookie, tape, server, draws')
          && (|| !Known(actions[i].box.nonce.cookie, tape, server, draws)
              || exists l :: l in links && l.ourCookie == actions[i].box.nonce.cookie
                             && l.ourCsn.Number() < actions[i].box.nonce.csn.Number()))
    && (forall i, k ::
        0 <= i < |actions| && actions[i].Reply? && k in links' && k.ourCookie == actions[i].box.nonce.cookie ==>
          actions[i].box.nonce.csn.Number() <= k.ourCsn.Number())
  }

  /** The link that admitted the nonce. */
  ghost predicate Admits(links: set<Link>, h: Hearing) {
    exists l :: l in links && l.ourCookie == h.context && Admit(l, h.nonce).1
  }

  /** A nonce that a link admits is newer than everything heard on it, with the same foreign cookie. */
  lemma AdmittedIsNew(links: set<Link>, tape: Tape, server: Cookie, draws: nat,
                      log: seq<Action>, heard: seq<Hearing>, h: Hearing)
    requires Covers(links, tape, server, draws, log, heard) && NoReplay(heard)
    requires Admits(links, h)
    ensures forall i :: 0 <= i < |heard| && heard[i].context == h.context ==>
              heard[i].nonce.csn.Less(h.nonce.csn) && heard[i].nonce.cookie == h.nonce.cookie
    ensures h.nonce.cookie != h.context
    ensures h.nonce.csn.overflow == 0 || exists i :: 0 <= i < |heard| && heard[i].context == h.context
  {
    var l :| l in links && l.ourCookie == h.context && Admit(l, h.nonce).1;
    AdmitHears(l, h.nonce);
    hide Admit;
    forall i | 0 <= i < |heard| && heard[i].context == h.context
      ensures heard[i].nonce.csn.Less(h.nonce.csn) && heard[i].nonce.cookie == h.nonce.cookie
    {
      assert Reached(l, heard[i].nonce);
    }
    if l.theirCsn.Some? || l.theirCookie.Some? {
      var i :| 0 <= i < |heard| && heard[i].context == l.ourCookie;
      assert heard[i].nonce.cookie != heard[i].context;
    }
  }

  /** What has been heard stays free of replays when a link admits one more nonce. */
  lemma HearingKeepsNoReplay(links: set<Link>, tape: Tape, server: Cookie, draws: nat,
                             log: seq<Action>, heard: seq<Hearing>, h: Hearing)
    requires Covers(links, tape, server, draws, log, heard) && NoReplay(heard)
    requires Admits(links, h)
    ensures NoReplay(heard + [h])
  {
    AdmittedIsNew(links, tape, server, draws, log, heard, h);
    hide Covers;
    hide Admits;
    var all := heard + [h];
    forall i | 0 <= i < |all| ensures all[i].nonce.csn.overflow == 0 || HeardBefore(all, i) {
      if i < |heard| {
        if HeardBefore(heard, i) {
          var j :| 0 <= j < i && heard[j].context == heard[i].context;
          assert all[j].context == all[i].context;
        }
      } else if h.nonce.csn.overflow != 0 {
        var j :| 0 <= j < |heard| && heard[j].context == h.context;
        assert all[j].context == all[i].context;
      }
    }
  }

  /** The log stays increasing per cookie when a step issues new nonces. */
  lemma IssuingKeepsIncreasing(links: set<Link>, links': set<Link>, tape: Tape, server: Cookie, draws: nat, draws': nat,
                               log: seq<Action>, heard: seq<Hearing>, actions: seq<Action>)
    requires Covers(links, tape, server, draws, log, heard) && Increasing(log)
    requires Issues(links, links', tape, server, draws, draws', actions)
    ensures Increasing(log + actions)
  {
  }

  lemma KnownGrows(c: Cookie, tape: Tape, server: Cookie, draws: nat, draws': nat)
    requires Known(c, tape, server, draws) && draws <= draws'
    ensures Known(c, tape, server, draws')
  {
  }

  /** The links of the next state cover the extended log. */
  lemma CoverLog(links: set<Link>, links': set<Link>, tape: Tape, server: Cookie, draws: nat, draws': nat,
                 log: seq<Action>, heard: seq<Hearing>, actions: seq<Action>, hearing: Option<Hearing>)
    requires Covers(links, tape, server, draws, log, heard) && draws <= draws'
    requires LinksEvolve(links, links', tape, server, draws, hearing)
    requires Issues(links, links', tape, server, draws, draws', actions)
    ensures var all := log + actions;
            && (forall i :: 0 <= i < |all| && all[i].Reply? ==> Known(all[i].box.nonce.cookie, tape, server, draws'))
            && (forall i, l ::
                0 <= i < |all| && all[i].Reply? && l in links' && all[i].box.nonce.cookie == l.ourCookie ==>
                  all[i].box.nonce.csn.Number() <= l.ourCsn.Number())
  {
  }

  /** The links of the next state cover what has been heard. */
  lemma CoverHeard(links: set<Link>, links': set<Link>, tape: Tape, server: Cookie, draws: nat, draws': nat,
                   log: seq<Action>, heard: seq<Hearing>, hearing: Option<Hearing>)
    requires Covers(links, tape, server, draws, log, heard) && draws <= draws'
    requires NoReplay(heard + Listed(hearing))
    requires LinksEvolve(links, links', tape, server, draws, hearing)
    requires hearing.Some? ==> Admits(links, hearing.value) && Known(hearing.value.context, tape, server, draws)
    ensures var all := heard + Listed(hearing);
            && (forall i :: 0 <= i < |all| ==> Known(all[i].context, tape, server, draws'))
            && (forall i, l :: 0 <= i < |all| && l in links' && all[i].context == l.ourCookie ==>
                Reached(l, all[i].nonce))
            && (forall l :: l in links' && (l.theirCsn.Some? || l.theirCookie.Some?) ==>
                  exists i :: 0 <= i < |all| && all[i].context == l.ourCookie)
  {
    var all := heard + Listed(hearing);
    forall i | 0 <= i < |all|
      ensures Known(all[i].context, tape, server, draws) && Known(all[i].context, tape, server, draws')
    {
      KnownGrows(all[i].context, tape, server, draws, draws');
    }
    forall i, k | 0 <= i < |all| && k in links' && all[i].context == k.ourCookie ensures Reached(k, all[i].nonce) {
      var l :| l in links && Evolves(l, k, hearing);
      if hearing.Some? && hearing.value.context == l.ourCookie {
        assert all[|heard|] == hearing.value;
      } else {
        assert all[i] == heard[i];
        assert Reached(l, heard[i].nonce);
      }
    }
    forall k | k in links' && (k.theirCsn.Some? || k.theirCookie.Some?)
      ensures exists i :: 0 <= i < |all| && all[i].context == k.ourCookie
    {
      var l :| l in links && Evolves(l, k, hearing);
      if hearing.Some? && hearing.value.context == l.ourCookie {
        assert all[|heard|].context == k.ourCookie;
      } else {
        var i :| 0 <= i < |heard| && heard[i].context == l.ourCookie;
        assert all[i].context == k.ourCookie;
      }
    }
  }

  function Listed(h: Option<Hearing>): seq<Hearing> {
    if h.Some? then [h.value] else []
  }

  /** The state of the ledger after a run: numbers never repeat, neither outgoing nor incoming. */
  ghost predicate Balanced(links: set<Link>, tape: Tape, server: Cookie, draws: nat, log: seq<Action>,
                           heard: seq<Hearing>) {
    Covers(links, tape, server, draws, log, heard) && Increasing(log) && NoReplay(heard)
  }

  /** One more step of any client whose links evolve and whose nonces are issued as above. */
  lemma StepBalances(links: set<Link>, links': set<Link>, tape: Tape, server: Cookie, draws: nat, draws': nat,
                     log: seq<Action>, heard: seq<Hearing>, actions: seq<Action>, hearing: Option<Hearing>)
    requires Balanced(links, tape, server, draws, log, heard) && draws <= draws'
    requires LinksEvolve(links, links', tape, server, draws, hearing)
    requires Issues(links, links', tape, server, draws, draws', actions)
    requires hearing.Some? ==> Admits(links, hearing.value) && Known(hearing.value.context, tape, server, draws)
    ensures Balanced(links', tape, server, draws', log + actions, heard + Listed(hearing))
  {
    if hearing.Some? {
      HearingKeepsNoReplay(links, tape, server, draws, log, heard, hearing.value);
    } else {
      assert heard + Listed(hearing) == heard;
    }
    IssuingKeepsIncreasing(links, links', tape, server, draws, draws', log, heard, actions);
    CoverLog(links, links', tape, server, draws, draws', log, heard, actions, hearing);
    CoverHeard(links, links', tape, server, draws, draws', log, heard, hearing);
  }

  /** All nonces in the log are pairwise distinct. */
  ghost predicate NoReuse(log: seq<Action>) {
    forall i, j :: 0 <= i < j < |log| && log[i].Reply? && log[j].Reply? ==> log[i].box.nonce != log[j].box.nonce
  }

  lemma IncreasingMeansNoReuse(log: seq<Action>)
    requires Increasing(log)
    ensures NoReuse(log)
  {
  }
}
