/** The auth messages built by one side and the structural checks made by the other. */
module Negotiation {
  import opened Basics
  import opened Messages
  import opened Tasks

  /** `None` stands for the builder's error. */
  function ResponderAuth(cookie: Cookie, ts: seq<Task>): Option<Auth> {
    var names := Names(ts);
    if names == [] || |Dedup(Sort(names))| != |names| then None
    else Some(Auth(cookie, Some(names), None, DataOf(ts)))
  }

  function InitiatorAuth(cookie: Cookie, t: Task): Auth {
    Auth(cookie, None, Some(t.name), map[t.name := t.data])
  }

  /** The initiator's structural checks on an auth message. */
  predicate ProposalPasses(auth: Auth) {
    && auth.task.None?
    && auth.tasks.Some?
    && auth.tasks.value != []
    && |auth.data| == |auth.tasks.value|
    && forall n :: n in auth.tasks.value ==> n in auth.data
  }

  /** The responder's structural checks on an auth message. */
  predicate ChoicePasses(auth: Auth, ours: seq<Task>) {
    && auth.tasks.None?
    && auth.task.Some?
    && FindTask(ours, auth.task.value).Some?
    && |auth.data| == 1
    && auth.task.value in auth.data
  }

  /**
   The choice is our earliest task whose name the peer proposes; there is none exactly when the lists are disjoint.
   */
  lemma {:induction false} ChooseSharedIsFirst(ours: seq<Task>, theirs: seq<string>)
    ensures var c := ChooseShared(ours, theirs);
            if c.Some? then
              exists k :: 0 <= k < |ours| && ours[k] == c.value && c.value.name in theirs
                          && forall j :: 0 <= j < k ==> ours[j].name !in theirs
            else
              forall j :: 0 <= j < |ours| ==> ours[j].name !in theirs
  {
    if ours != [] && ours[0].name !in theirs {
      ChooseSharedIsFirst(ours[1..], theirs);
      var c := ChooseShared(ours[1..], theirs);
      if c.Some? {
        var k :| 0 <= k < |ours[1..]| && ours[1..][k] == c.value
                 && forall j :: 0 <= j < k ==> ours[1..][j].name !in theirs;
        assert ours[k + 1] == c.value;
        forall j | 0 <= j < k + 1 ensures ours[j].name !in theirs {
          if j > 0 { assert ours[j] == ours[1..][j - 1]; }
        }
      } else {
        forall j | 0 <= j < |ours| ensures ours[j].name !in theirs {
          if j > 0 { assert ours[j] == ours[1..][j - 1]; }
        }
      }
    }
  }

  /** The responder's builder succeeds exactly on non-empty, duplicate-free task lists. */
  lemma ResponderBuilderIsExact(cookie: Cookie, ts: seq<Task>)
    ensures ResponderAuth(cookie, ts).Some? <==> ts != [] && NoDup(Names(ts))
  {
    SortSorts(Names(ts));
    DuplicateTestIsExact(Names(ts), Sort(Names(ts)));
  }

  /** For a duplicate-free proposal, counting and membership together say that the data keys are the task names. */
  lemma ProposalDataExact(auth: Auth)
    requires auth.tasks.Some? && auth.task.None? && auth.tasks.value != [] && NoDup(auth.tasks.value)
    ensures ProposalPasses(auth) <==> auth.data.Keys == set n | n in auth.tasks.value
  {
    var names := set n | n in auth.tasks.value;
    NoDupIffFullSize(auth.tasks.value);
    assert |auth.data| == |auth.data.Keys|;
    if ProposalPasses(auth) {
      assert names <= auth.data.Keys;
      assert auth.data.Keys == names + (auth.data.Keys - names);
    }
  }

  /** A proposal that passes carries data for its tasks and no others if and only if no name is repeated. */
  lemma PassingDataExact(auth: Auth)
    requires ProposalPasses(auth)
    ensures auth.data.Keys == (set n | n in auth.tasks.value) <==> NoDup(auth.tasks.value)
  {
    var names := set n | n in auth.tasks.value;
    NoDupIffFullSize(auth.tasks.value);
    assert |auth.data| == |auth.data.Keys|;
    assert names <= auth.data.Keys;
    assert auth.data.Keys == names + (auth.data.Keys - names);
  }

  /** With a repeated name the same check lets data for an unproposed task through. */
  lemma RepeatedProposalSlipsThrough(cookie: Cookie)
    ensures exists auth: Auth :: ProposalPasses(auth) && !(auth.data.Keys <= set n | n in auth.tasks.value)
  {
    var auth := Auth(cookie, Some(["a", "a"]), None, map["a" := None, "b" := None]);
    assert "b" in auth.data.Keys;
    assert |auth.data| == 2 by {
      assert auth.data.Keys == {"a", "b"};
      assert "a" != "b" by { assert "a"[0] != "b"[0]; }
    }
    assert "b" !in auth.tasks.value by { assert "a"[0] != "b"[0]; }
    assert ProposalPasses(auth);
  }

  /** Every auth message the responder builds passes the initiator's checks. */
  lemma ProposalFits(cookie: Cookie, ts: seq<Task>)
    requires ResponderAuth(cookie, ts).Some?
    ensures ProposalPasses(ResponderAuth(cookie, ts).value)
  {
    ResponderBuilderIsExact(cookie, ts);
    var auth := ResponderAuth(cookie, ts).value;
    assert auth.data.Keys == set n | n in auth.tasks.value;
    ProposalDataExact(auth);
  }

  /** Looking a task up by name succeeds exactly on the names in the list. */
  lemma FindTaskFinds(ts: seq<Task>, name: string)
    ensures FindTask(ts, name).Some? <==> name in Names(ts)
    ensures FindTask(ts, name).Some? ==> FindTask(ts, name).value.name == name
  {
    ChooseSharedIsFirst(ts, [name]);
    if name in Names(ts) {
      var j :| 0 <= j < |ts| && Names(ts)[j] == name;
      assert ts[j].name in [name];
    }
  }

  /** A task is shared when both lists name it. */
  ghost predicate ShareTask(ours: seq<Task>, theirs: seq<Task>) {
    exists i, j :: 0 <= i < |ours| && 0 <= j < |theirs| && ours[i].name == theirs[j].name
  }

  /** The initiator finds a task exactly when the two lists share a name. */
  lemma SharedTaskFound(ours: seq<Task>, theirs: seq<Task>)
    ensures ChooseShared(ours, Names(theirs)).Some? <==> ShareTask(ours, theirs)
  {
  }

  /** Whenever the initiator finds a task, the responder accepts its answer and finds a task of the same name. */
  lemma ChoiceFits(ours: seq<Task>, theirs: seq<Task>, cookie: Cookie)
    requires ChooseShared(ours, Names(theirs)).Some?
    ensures var c := ChooseShared(ours, Names(theirs)).value;
            && ChoicePasses(InitiatorAuth(cookie, c), theirs)
            && FindTask(theirs, c.name).value.name == c.name
  {
    ChooseSharedIsFirst(ours, Names(theirs));
    FindTaskFinds(theirs, ChooseShared(ours, Names(theirs)).value.name);
  }

  /** Chooses the first of our tasks that the peer proposes, by scanning our list. */
  method ChooseSharedTask(ours: seq<Task>, theirs: seq<string>) returns (chosen: Option<Task>)
    ensures chosen == ChooseShared(ours, theirs)
    ensures chosen.None? <==> forall j :: 0 <= j < |ours| ==> ours[j].name !in theirs
  {
    ChooseSharedIsFirst(ours, theirs);
    assert ours[0..] == ours;
    for k := 0 to |ours|
      invariant ChooseShared(ours, theirs) == ChooseShared(ours[k..], theirs)
      invariant forall j :: 0 <= j < k ==> ours[j].name !in theirs
    {
      if ours[k].name in theirs {
        return Some(ours[k]);
      }
      assert ours[k..][1..] == ours[k + 1..];
    }
    return None;
  }

  lemma PrefixGrows(ts: seq<Task>, k: nat)
    requires k < |ts|
    ensures Names(ts[..k + 1]) == Names(ts[..k]) + [ts[k].name]
    ensures DataOf(ts[..k + 1]) == DataOf(ts[..k])[ts[k].name := ts[k].data]
  {
    assert ts[..k + 1][..k] == ts[..k];
  }

  lemma MergeThenUpdate<K, V>(a: map<K, V>, b: map<K, V>, k: K, v: V)
    ensures a + b[k := v] == (a + b)[k := v]
  {
  }

  /** Builds the auth message an initiator sends; setting a task again replaces the earlier one. */
  class InitiatorAuthBuilder {
    var cookie: Cookie
    var task: Option<string>
    var data: map<string, TaskData>

    constructor (cookie: Cookie)
      ensures this.cookie == cookie && task.None? && data == map[]
    {
      this.cookie, task, data := cookie, None, map[];
    }

    method SetTask(t: Task)
      modifies this
      ensures cookie == old(cookie) && task == Some(t.name) && data == map[t.name := t.data]
    {
      task := Some(t.name);
      data := map[];
      data := data[t.name := t.data];
    }

    /**
     Fails exactly when no task was set; otherwise the message names the task that was set last, with its data only.
     */
    method Build() returns (auth: Option<Auth>)
      ensures auth.Some? <==> task.Some?
      ensures forall t: Task :: task == Some(t.name) && data == map[t.name := t.data] ==>
              auth == Some(InitiatorAuth(cookie, t))
    {
      if task.None? { return None; }
      return Some(Auth(cookie, None, task, data));
    }
  }

  /** Builds the auth message a responder sends; the fields are filled in place. */
  class ResponderAuthBuilder {
    var cookie: Cookie
    var names: seq<string>
    var data: map<string, TaskData>

    constructor (cookie: Cookie)
      ensures this.cookie == cookie && names == [] && data == map[]
    {
      this.cookie, names, data := cookie, [], map[];
    }

    /** Appends every task's name and inserts its data. */
    method AddTasks(ts: seq<Task>)
      modifies this
      ensures cookie == old(cookie)
      ensures names == old(names) + Names(ts)
      ensures data == old(data) + DataOf(ts)
    {
      for k := 0 to |ts|
        invariant cookie == old(cookie)
        invariant names == old(names) + Names(ts[..k])
        invariant data == old(data) + DataOf(ts[..k])
      {
        PrefixGrows(ts, k);
        MergeThenUpdate(old(data), DataOf(ts[..k]), ts[k].name, ts[k].data);
        assert old(names) + Names(ts[..k + 1]) == old(names) + Names(ts[..k]) + [ts[k].name];
        names := names + [ts[k].name];
        data := data[ts[k].name := ts[k].data];
      }
      assert ts[..|ts|] == ts;
    }

    /** Fails exactly when there is no task or a name repeats. */
    method Build() returns (auth: Option<Auth>)
      ensures auth.Some? <==> names != [] && NoDup(names)
      ensures auth.Some? ==> auth.value == Auth(cookie, Some(names), None, data)
    {
      var cloned := Sort(names);
      cloned := Dedup(cloned);
      SortSorts(names);
      DuplicateTestIsExact(names, Sort(names));
      if names == [] || |cloned| != |names| {
        return None;
      }
      return Some(Auth(cookie, Some(names), None, data));
    }
  }
}
