/** Sending a whole stream into a sink, one poll at a time, without closing the sink at the end. */
module SendAllFuture {
  import opened Basics

  /** What the surroundings answer when asked for progress. */
  datatype Answer = Ready | NotReady | Fails

  /** A sink takes items when it is ready and hands them back when it is not; flushing may take a while. */
  class Sink<T> {
    const answers: nat -> Answer
    var calls: nat
    var accepted: seq<T>
    var flushed: nat

    constructor (answers: nat -> Answer)
      ensures this.answers == answers && accepted == [] && flushed == 0
    {
      this.answers, calls, accepted, flushed := answers, 0, [], 0;
    }

    /** The answer says whether the item was taken; on failure it is gone. */
    method StartSend(item: T) returns (answer: Answer)
      modifies this
      ensures answer == answers(old(calls))
      ensures accepted == if answer.Ready? then old(accepted) + [item] else old(accepted)
      ensures flushed == old(flushed)
    {
      answer := answers(calls);
      calls := calls + 1;
      if answer.Ready? { accepted := accepted + [item]; }
    }

    method PollComplete() returns (answer: Answer)
      modifies this
      ensures answer == answers(old(calls))
      ensures accepted == old(accepted)
      ensures flushed == if answer.Ready? then |accepted| else old(flushed)
    {
      answer := answers(calls);
      calls := calls + 1;
      if answer.Ready? { flushed := |accepted|; }
    }
  }

  datatype Polled<T> = Item(item: T) | End | Later | Broken

  /** A finite stream: it may keep its reader waiting or fail at any time, but its items come in order. */
  class Source<T> {
    const answers: nat -> Answer
    var calls: nat
    var unread: seq<T>

    constructor (answers: nat -> Answer, items: seq<T>)
      ensures this.answers == answers && unread == items
    {
      this.answers, calls, unread := answers, 0, items;
    }

    method Poll() returns (p: Polled<T>)
      modifies this
      ensures var answer := answers(old(calls));
              && (p.Item? <==> answer.Ready? && old(unread) != [])
              && (p.End? <==> answer.Ready? && old(unread) == [])
              && (p.Later? <==> answer.NotReady?)
      ensures if p.Item? then old(unread) == [p.item] + unread else unread == old(unread)
    {
      var answer := answers(calls);
      calls := calls + 1;
      match answer
      case Fails => p := Broken;
      case NotReady => p := Later;
      case Ready =>
        if unread == [] {
          p := End;
        } else {
          p := Item(unread[0]);
          unread := unread[1..];
        }
    }
  }

  datatype Progress<T(!new)> = Done | Pending | Failed(lost: Option<T>)

  function AsSeq<T>(o: Option<T>): seq<T> {
    if o.Some? then [o.value] else []
  }

  /** An item at the head of the rest may as well stand at the end of what was taken. */
  lemma NextInLine<T>(taken: seq<T>, item: T, rest: seq<T>)
    ensures taken + ([item] + rest) == taken + [item] + rest
  {
  }

  ghost predicate AlwaysReady(answers: nat -> Answer) {
    forall n :: answers(n).Ready?
  }

  class SendAll<T(!new)> {
    const sink: Sink<T>
    const stream: Source<T>
    var buffered: Option<T>
    var completed: bool

    constructor (sink: Sink<T>, stream: Source<T>)
      ensures this.sink == sink && this.stream == stream && buffered.None? && !completed
    {
      this.sink, this.stream, buffered, completed := sink, stream, None, false;
    }

    /** Everything there is, in order: what the sink has taken, what is held back, what has not been read. */
    ghost function Everything(): seq<T>
      reads this, sink, stream
    {
      sink.accepted + AsSeq(buffered) + stream.unread
    }

    /**
     The buffer is empty at every attempt; afterwards the item is in the sink, back in the buffer, or lost to an
     error.
     */
    method TryStartSend(item: T) returns (p: Progress<T>)
      requires buffered.None?
      modifies this`buffered, sink
      ensures p == match sink.answers(old(sink.calls))
                   case Ready => Done
                   case NotReady => Pending
                   case Fails => Failed(Some(item))
      ensures sink.accepted == if p.Done? then old(sink.accepted) + [item] else old(sink.accepted)
      ensures buffered == if p.Pending? then Some(item) else None
    {
      var answer := sink.StartSend(item);
      match answer
      case Ready => p := Done;
      case NotReady =>
        buffered := Some(item);
        p := Pending;
      case Fails => p := Failed(Some(item));
    }

    /** What was held back is written to the sink before anything else happens. */
    method SendBuffered() returns (p: Progress<T>)
      modifies this`buffered, sink
      ensures old(sink.accepted) <= sink.accepted
      ensures p.Done? ==> buffered.None?
      ensures p.Failed? ==> buffered.None?
      ensures sink.accepted + AsSeq(if p.Failed? then p.lost else buffered) == old(sink.accepted + AsSeq(buffered))
      ensures AlwaysReady(sink.answers) ==> p.Done?
    {
      if buffered.None? { return Done; }
      var item := buffered.value;
      buffered := None;
      p := TryStartSend(item);
    }

    /**
     One poll. Nothing is lost, repeated or reordered; completion is reported only when all of the stream is in the sink
     and flushed; on an error at most the item in hand is lost, and it is the next one after those the sink has taken.
     */
    method Poll() returns (p: Progress<T>)
      requires !completed
      modifies this, sink, stream
      ensures old(sink.accepted) <= sink.accepted
      ensures p.Pending? ==> !completed && Everything() == old(Everything())
      ensures p.Done? ==> completed && sink.accepted == old(Everything()) && stream.unread == [] && buffered.None?
                          && sink.flushed == |sink.accepted|
      ensures p.Failed? ==> buffered.None? && sink.accepted + AsSeq(p.lost) + stream.unread == old(Everything())
      ensures AlwaysReady(sink.answers) && AlwaysReady(stream.answers) ==> p.Done?
    {
      ghost var all := Everything();
      p := SendBuffered();
      if !p.Done? { return; }
      assert sink.accepted + stream.unread == all;
      while true
        invariant !completed && buffered.None?
        invariant old(sink.accepted) <= sink.accepted
        invariant sink.accepted + stream.unread == all
        decreases |stream.unread|
      {
        ghost var taken := sink.accepted;
        var next := stream.Poll();
        match next {
          case Item(item) =>
            NextInLine(taken, item, stream.unread);
            p := TryStartSend(item);
            if !p.Done? { return; }
          case End =>
            var flush := sink.PollComplete();
            if flush.NotReady? { return Pending; }
            if flush.Fails? { return Failed(None); }
            completed := true;
            return Done;
          case Later =>
            var flush := sink.PollComplete();
            if flush.Fails? { return Failed(None); }
            return Pending;
          case Broken =>
            return Failed(None);
        }
      }
    }

    /** Any number of polls, stopping early once the future is over. */
    method PollRepeatedly(times: nat) returns (p: Progress<T>)
      requires !completed
      modifies this, sink, stream
      ensures old(sink.accepted) <= sink.accepted
      ensures p.Pending? ==> Everything() == old(Everything())
      ensures p.Done? ==> sink.accepted == old(Everything()) && sink.flushed == |sink.accepted|
      ensures p.Failed? ==> sink.accepted + AsSeq(p.lost) + stream.unread == old(Everything())
    {
      p := Pending;
      for k := 0 to times
        invariant p.Pending? && !completed
        invariant old(sink.accepted) <= sink.accepted
        invariant Everything() == old(Everything())
      {
        p := Poll();
        if !p.Pending? { return; }
      }
    }
  }
}
