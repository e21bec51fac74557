/** Messages of the task: how they are put on the wire and what the other side makes of them. */
module TaskTraffic {
  import opened Basics
  import opened Messages
  import opened Boxes
  import opened Contexts
  import opened Signaling

  // ---------- Maps on the wire ----------

  /** The pairs of a map, in the order its keys are listed. */
  function PairsOf(m: map<string, Value>, keys: seq<string>): seq<(Value, Value)>
    requires forall k :: k in keys ==> k in m
  {
    if keys == [] then []
    else
      var k := keys[|keys| - 1];
      PairsOf(m, keys[..|keys| - 1]) + [(Str(k), m[k])]
  }

  /** The part of a map at the listed keys. */
  function Restricted(m: map<string, Value>, keys: seq<string>): map<string, Value>
    requires forall k :: k in keys ==> k in m
  {
    map k | k in keys :: m[k]
  }

  lemma {:induction false} PairsRestore(m: map<string, Value>, keys: seq<string>)
    requires forall k :: k in keys ==> k in m
    ensures FieldsOf(PairsOf(m, keys)) == Some(Restricted(m, keys))
    decreases |keys|
  {
    if keys == [] {
      assert Restricted(m, []) == map[];
    } else {
      var front, k := keys[..|keys| - 1], keys[|keys| - 1];
      PairsRestore(m, front);
      var p := PairsOf(m, keys);
      assert p[..|p| - 1] == PairsOf(m, front);
      assert Restricted(m, keys) == Restricted(m, front)[k := m[k]] by { assert keys == front + [k]; }
    }
  }

  // ---------- The outgoing mapping ----------

  /** What the signalling layer is asked to send for a message of the task; maps go out in any key order. */
  function Outgoing(message: TaskMessage, keys: seq<string>, reading: Option<Message>): Input
    requires message.ValueMessage? ==> forall k :: k in keys ==> k in message.fields
  {
    match message
    case ValueMessage(m) => SendTask(Map(PairsOf(m, keys)), reading)
    case Application(data) => SendTask(Map([(Str("type"), Str("application")), (Str("data"), data)]), reading)
    case CloseMessage(code) => SendClose(code)
  }

  /** Builds the outgoing value pair by pair. */
  method Transform(message: TaskMessage, keys: seq<string>, reading: Option<Message>) returns (input: Input)
    requires message.ValueMessage? ==> forall k :: k in keys ==> k in message.fields
    ensures input == Outgoing(message, keys, reading)
  {
    var pairs: seq<(Value, Value)> := [];
    match message {
      case ValueMessage(m) =>
        for k := 0 to |keys|
          invariant pairs == PairsOf(m, keys[..k])
        {
          assert keys[..k + 1][..k] == keys[..k];
          pairs := pairs + [(Str(keys[k]), m[keys[k]])];
        }
        assert keys[..|keys|] == keys;
        return SendTask(Map(pairs), reading);
      case Application(data) =>
        pairs := [(Str("type"), Str("application"))];
        pairs := pairs + [(Str("data"), data)];
        assert pairs == [(Str("type"), Str("application")), (Str("data"), data)];
        return SendTask(Map(pairs), reading);
      case CloseMessage(code) =>
        return SendClose(code);
    }
  }

  /** The value the other side reads. */
  function OnTheWire(message: TaskMessage, keys: seq<string>): Value
    requires message.ValueMessage? ==> forall k :: k in keys ==> k in message.fields
  {
    match Outgoing(message, keys, None)
    case SendTask(v, _) => v
    case SendClose(code) => MessageValue(Close(code.AsNumber()))
    case Receive(_, _) => Nil
  }

  // ---------- Round trip ----------

  /** A map message needs a type of its own that the task takes; the other two kinds always get through. */
  predicate Survives(message: TaskMessage, types: seq<string>) {
    message.ValueMessage? ==>
      && "type" in message.fields && message.fields["type"].Str?
      && message.fields["type"].s != "application" && message.fields["type"].s != "close"
      && message.fields["type"].s in types
  }

  /** Close codes are numbers on the wire. */
  function Normalised(message: TaskMessage): TaskMessage {
    if message.CloseMessage? then CloseMessage(CloseCodeFromNumber(message.code.AsNumber())) else message
  }

  /** For every key order, the message comes back as it was sent if and only if it survives. */
  lemma MessageComesBack(message: TaskMessage, keys: seq<string>, types: seq<string>)
    requires message.ValueMessage? ==> Lists(keys, message.fields.Keys)
    ensures TaskActions(OnTheWire(message, keys), Some(types)) == Ok([TaskAction(Normalised(message))])
            <==> Survives(message, types)
  {
    match message
    case ValueMessage(m) =>
      PairsRestore(m, keys);
      assert Restricted(m, keys) == m;
    case Application(data) =>
      TwoFields("type", Str("application"), "data", data);
    case CloseMessage(code) =>
      TwoFields("type", Str("close"), "reason", Int(code.AsNumber()));
  }

  lemma TwoFields(k: string, v: Value, l: string, u: Value)
    ensures FieldsOf([(Str(k), v), (Str(l), u)]) == Some(map[k := v][l := u])
  {
    var one, two := [(Str(k), v)], [(Str(k), v), (Str(l), u)];
    assert two[..1] == one && one[..0] == [];
    assert FieldsOf(one) == Some(map[k := v]) by { assert map[][k := v] == map[k := v]; }
  }

  /** A close code comes back unchanged unless it spells out the number of a named one. */
  lemma CloseCodeComesBack(code: CloseCode)
    ensures Normalised(CloseMessage(code)) == CloseMessage(code) <==> (code.Other? ==> !IsNamed(code.code))
  {
  }

  predicate IsNamed(n: U16) {
    1000 <= n <= 1002 || 3000 <= n <= 3008
  }
}
