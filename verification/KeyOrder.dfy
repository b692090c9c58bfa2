/**
 Key order and the conversation round trip: the keys of a message may come in any order,
 and the keys inside tool-call arguments come back in the order they were sent.
 */
module KeyOrder {
  import opened Basics
  import opened Documents
  import opened Messages
  import opened RoundTrip

  // ----- documents up to key order -----

  /** The document with all key orders forgotten: `serde_json` equality is equality of these. */
  function Plain(v: Value): Value {
    match v
    case Arr(items) => Arr(seq(|items|, i requires 0 <= i < |items| => Plain(items[i])))
    case Object(fields, _) => Obj(map k | k in fields :: Plain(fields[k]))
    case _ => v
  }

  function PlainAll(vs: seq<Value>): seq<Value> {
    seq(|vs|, i requires 0 <= i < |vs| => Plain(vs[i]))
  }

  predicate Leaf(v: Option<Value>) {
    v.Some? ==> !v.value.Arr? && !v.value.Object?
  }

  lemma PlainGet(v: Value, key: string)
    ensures Get(Plain(v), key) == if Get(v, key).Some? then Some(Plain(Get(v, key).value)) else None
  {
  }

  /** A field that holds no array and no object is read the same in any order. */
  lemma LeafGet(v: Value, key: string)
    requires Leaf(Get(Plain(v), key))
    ensures Get(v, key) == Get(Plain(v), key)
  {
    PlainGet(v, key);
  }

  lemma LeafGetIn(v: Value, outer: string, key: string)
    requires Leaf(GetIn(Get(Plain(v), outer), key))
    ensures GetIn(Get(v, outer), key) == GetIn(Get(Plain(v), outer), key)
  {
    PlainGet(v, outer);
    if Get(v, outer).Some? { LeafGet(Get(v, outer).value, key); }
  }

  lemma ArrayGet(v: Value, key: string, items: seq<Value>)
    requires Get(Plain(v), key) == Some(Arr(items))
    ensures Get(v, key).Some? && Get(v, key).value.Arr? && PlainAll(Get(v, key).value.items) == items
  {
    PlainGet(v, key);
  }

  // ----- turns in any key order -----

  /** A content item is translated by these reads alone. */
  lemma ItemIsItsReads(a: Value, b: Value)
    requires Get(a, "type") == Get(b, "type") && Get(a, "text") == Get(b, "text")
        && Get(a, "cache_control") == Get(b, "cache_control")
    requires GetIn(Get(a, "image_url"), "url") == GetIn(Get(b, "image_url"), "url")
    requires GetIn(Get(a, "file"), "file_url") == GetIn(Get(b, "file"), "file_url")
    requires GetIn(Get(a, "file"), "file_data") == GetIn(Get(b, "file"), "file_data")
    requires GetIn(Get(a, "file"), "mime_type") == GetIn(Get(b, "file"), "mime_type")
    ensures ItemBlocks(a) == ItemBlocks(b)
  {
  }

  lemma PartReads(p: Part)
    ensures var w := PartWire(p);
      && Leaf(Get(w, "type")) && Leaf(Get(w, "text")) && Leaf(Get(w, "cache_control"))
      && Leaf(GetIn(Get(w, "image_url"), "url"))
      && Leaf(GetIn(Get(w, "file"), "file_url")) && Leaf(GetIn(Get(w, "file"), "file_data"))
      && Leaf(GetIn(Get(w, "file"), "mime_type"))
  {
    match p
    case Text(_) =>
    case Image(url) => WireOfImage(url);
    case FileUrl(url, mime) => FileFields("file_url", Str(url), OptStr(mime));
    case FileData(data, mime) => FileFields("file_data", Str(data), OptStr(mime));
  }

  lemma PartInAnyOrder(item: Value, p: Part)
    requires Plain(item) == PartWire(p)
    ensures ItemBlocks(item) == ItemBlocks(PartWire(p))
  {
    PartReads(p);
    LeafGet(item, "type");
    LeafGet(item, "text");
    LeafGet(item, "cache_control");
    LeafGetIn(item, "image_url", "url");
    LeafGetIn(item, "file", "file_url");
    LeafGetIn(item, "file", "file_data");
    LeafGetIn(item, "file", "mime_type");
    ItemIsItsReads(item, Plain(item));
  }

  lemma {:induction false} PartsInAnyOrder(items: seq<Value>, parts: seq<Part>)
    requires PlainAll(items) == Wires(parts, PartWire)
    ensures Each(items, ItemBlocks) == Each(Wires(parts, PartWire), ItemBlocks)
  {
    if parts != [] {
      assert |PlainAll(items)| == |items| == |parts|;
      assert Plain(items[0]) == PlainAll(items)[0] == PartWire(parts[0]);
      PartInAnyOrder(items[0], parts[0]);
      assert PlainAll(items[1..]) == PlainAll(items)[1..] == Wires(parts[1..], PartWire);
      PartsInAnyOrder(items[1..], parts[1..]);
      assert Wires(parts, PartWire)[1..] == Wires(parts[1..], PartWire);
    }
  }

  lemma CallInAnyOrder(call: Value, c: Call, parse: Parse)
    requires Plain(call) == CallWire(c)
    ensures CallInput(call, parse) == CallInput(CallWire(c), parse)
    ensures forall input :: ToolUse(call, input) == ToolUse(CallWire(c), input)
  {
    CallFields(c);
    LeafGetIn(call, "function", "arguments");
    LeafGetIn(call, "function", "name");
    LeafGet(call, "id");
    LeafGet(call, "cache_control");
  }

  lemma {:induction false} CallsInAnyOrder(items: seq<Value>, calls: seq<Call>, parse: Parse)
    requires PlainAll(items) == Wires(calls, CallWire)
    ensures ToolUses(items, parse) == ToolUses(Wires(calls, CallWire), parse)
  {
    if calls != [] {
      assert |PlainAll(items)| == |items| == |calls|;
      assert Plain(items[0]) == PlainAll(items)[0] == CallWire(calls[0]);
      CallInAnyOrder(items[0], calls[0], parse);
      assert PlainAll(items[1..]) == PlainAll(items)[1..] == Wires(calls[1..], CallWire);
      CallsInAnyOrder(items[1..], calls[1..], parse);
      assert Wires(calls, CallWire)[1..] == Wires(calls[1..], CallWire);
    }
  }

  lemma RoleInAnyOrder(msg: Value, t: Turn)
    requires Plain(msg) == Wire(t)
    ensures Get(msg, "role") == Get(Wire(t), "role") && Leaf(Get(Wire(t), "role"))
  {
    match t {
      case Assistant(content, calls) => AssistantFields(content, calls);
      case System(developer, text) => SaidFields(Str(if developer then "developer" else "system"), Str(text));
      case User(text) => SaidFields(Str("user"), Str(text));
      case Parts(parts) => SaidFields(Str("user"), Arr(Wires(parts, PartWire)));
      case Tool(_, _) => assert Get(Wire(t), "role") == Some(Str("tool"));
    }
    LeafGet(msg, "role");
  }

  lemma CallsReadInAnyOrder(msg: Value, content: Option<string>, calls: seq<Call>, parse: Parse)
    requires Plain(msg) == Wire(Assistant(content, calls))
    ensures ToolUses(CallsIn(msg), parse) == ToolUses(Wires(calls, CallWire), parse)
  {
    if calls == [] {
      SaidFields(Str("assistant"), OptStr(content));
      LeafGet(msg, "tool_calls");
    } else {
      ArrayGet(msg, "tool_calls", Wires(calls, CallWire));
      CallsInAnyOrder(CallsIn(msg), calls, parse);
    }
  }

  /** An assistant message is translated by these reads alone. */
  lemma AssistantIsItsReads(a: Value, b: Value, parse: Parse)
    requires Get(a, "role") == Get(b, "role") == Some(Str("assistant")) && Get(a, "content") == Get(b, "content")
    requires Get(a, "content_blocks") == Get(b, "content_blocks")
        && ToolUses(CallsIn(a), parse) == ToolUses(CallsIn(b), parse)
    ensures ToAnthropic(a, parse) == ToAnthropic(b, parse)
  {
    assert Spoken(a) == Spoken(b);
  }

  lemma AssistantInAnyOrder(msg: Value, content: Option<string>, calls: seq<Call>, parse: Parse)
    requires Plain(msg) == Wire(Assistant(content, calls))
    ensures ToAnthropic(msg, parse) == ToAnthropic(Wire(Assistant(content, calls)), parse)
  {
    AssistantFields(content, calls);
    LeafGet(msg, "role");
    LeafGet(msg, "content");
    LeafGet(msg, "content_blocks");
    CallsReadInAnyOrder(msg, content, calls, parse);
    AssistantIsItsReads(msg, Plain(msg), parse);
  }

  /** A user message with content items is translated by these reads alone. */
  lemma UserIsItsReads(a: Value, b: Value, items: seq<Value>, others: seq<Value>, parse: Parse)
    requires Get(a, "role") == Get(b, "role") == Some(Str("user"))
    requires Get(a, "content") == Some(Arr(items)) && Get(b, "content") == Some(Arr(others)) && |items| == |others|
    requires Each(items, ItemBlocks) == Each(others, ItemBlocks)
    ensures ToAnthropic(a, parse) == ToAnthropic(b, parse)
  {
    if items == [] { assert others == []; }
    assert UserMessage(a) == UserMessage(b);
  }

  lemma PartsTurnInAnyOrder(msg: Value, parts: seq<Part>, parse: Parse)
    requires Plain(msg) == Wire(Parts(parts))
    ensures ToAnthropic(msg, parse) == ToAnthropic(Wire(Parts(parts)), parse)
  {
    var wires := Wires(parts, PartWire);
    SaidFields(Str("user"), Arr(wires));
    LeafGet(msg, "role");
    ArrayGet(msg, "content", wires);
    var items := Get(msg, "content").value.items;
    assert |PlainAll(items)| == |items|;
    PartsInAnyOrder(items, parts);
    UserIsItsReads(msg, Wire(Parts(parts)), items, wires, parse);
  }

  lemma TurnInAnyOrder(msg: Value, t: Turn, parse: Parse)
    requires Plain(msg) == Wire(t)
    ensures ToAnthropic(msg, parse) == ToAnthropic(Wire(t), parse)
  {
    RoleInAnyOrder(msg, t);
    match t
    case Assistant(content, calls) => AssistantInAnyOrder(msg, content, calls, parse);
    case Parts(parts) => PartsTurnInAnyOrder(msg, parts, parse);
    case System(developer, text) => SaidFields(Str(if developer then "developer" else "system"), Str(text));
    case User(text) =>
      SaidFields(Str("user"), Str(text));
      LeafGet(msg, "content");
    case Tool(id, text) =>
      var w := Wire(t);
      assert Get(w, "tool_call_id") == Some(Str(id)) && Get(w, "content") == Some(Str(text));
      LeafGet(msg, "tool_call_id");
      LeafGet(msg, "content");
  }

  lemma SystemInAnyOrder(msg: Value, t: Turn)
    requires Plain(msg) == Wire(t)
    ensures SystemEntries(msg) == SystemEntries(Wire(t))
  {
    RoleInAnyOrder(msg, t);
    match t
    case System(developer, text) =>
      SaidFields(Str(if developer then "developer" else "system"), Str(text));
      LeafGet(msg, "content");
    case Assistant(content, calls) => AssistantFields(content, calls);
    case User(text) => SaidFields(Str("user"), Str(text));
    case Parts(parts) => SaidFields(Str("user"), Arr(Wires(parts, PartWire)));
    case Tool(_, _) => assert Get(Wire(t), "role") == Some(Str("tool"));
  }

  lemma {:induction false} ConversationInAnyOrder(msgs: seq<Value>, conv: seq<Turn>, parse: Parse)
    requires PlainAll(msgs) == Wires(conv, Wire)
    ensures AllToAnthropic(msgs, parse) == AllToAnthropic(Wires(conv, Wire), parse)
    ensures Each(msgs, SystemEntries) == Each(Wires(conv, Wire), SystemEntries)
  {
    if conv != [] {
      var wires := Wires(conv, Wire);
      assert |PlainAll(msgs)| == |msgs| == |conv|;
      assert Plain(msgs[0]) == PlainAll(msgs)[0] == Wire(conv[0]);
      TurnInAnyOrder(msgs[0], conv[0], parse);
      SystemInAnyOrder(msgs[0], conv[0]);
      assert PlainAll(msgs[1..]) == PlainAll(msgs)[1..] == Wires(conv[1..], Wire);
      ConversationInAnyOrder(msgs[1..], conv[1..], parse);
      assert wires[1..] == Wires(conv[1..], Wire);
    }
  }

  /** The round trip in full: whatever order the keys of the messages come in, they come back
      unchanged exactly when the conversation lies in the fragment. */
  lemma RoundTripInAnyKeyOrder(msgs: seq<Value>, conv: seq<Turn>, parse: Parse, render: Render)
    requires render(Obj(map[])) != "" && PlainAll(msgs) == Wires(conv, Wire)
    ensures Trip(msgs, parse, render) == Some(PlainAll(msgs)) <==> InFragment(conv, parse, render)
  {
    ConversationInAnyOrder(msgs, conv, parse);
    RoundTripExactly(conv, parse, render);
  }

  // ----- arguments -----

  const AB := "{\"a\":1,\"b\":2}"
  const BA := "{\"b\":2,\"a\":1}"

  function Fields(): map<string, Value> {
    map["a" := Int(1), "b" := Int(2)]
  }

  function Asks(arguments: string): seq<Turn> {
    [Assistant(Some("hi"), [Call("1", "f", arguments)])]
  }

  lemma ArgumentsSurvive(arguments: string, parse: Parse, render: Render)
    requires render(Obj(map[])) != ""
    ensures RoundTrips(Asks(arguments), parse, render) <==> NormalCall(Call("1", "f", arguments), parse, render)
  {
    LoneTurn(Asks(arguments)[0], parse, render);
  }

  lemma TwoTextsOneValue()
    ensures AB != BA && AB != "" && BA != ""
    ensures Plain(Object(Fields(), ["a", "b"])) == Plain(Object(Fields(), ["b", "a"]))
  {
    assert AB[2] != BA[2];
  }

  /** Arguments that differ only in key order are equal values for `serde_json`, and each
      comes back as it was sent. */
  lemma BothKeyOrdersSurvive(parse: Parse, render: Render)
    requires render(Obj(map[])) != ""
    requires parse(AB) == Ok(Object(Fields(), ["a", "b"])) && render(Object(Fields(), ["a", "b"])) == AB
    requires parse(BA) == Ok(Object(Fields(), ["b", "a"])) && render(Object(Fields(), ["b", "a"])) == BA
    ensures AB != BA && Plain(parse(AB).value) == Plain(parse(BA).value)
    ensures RoundTrips(Asks(AB), parse, render) && RoundTrips(Asks(BA), parse, render)
  {
    TwoTextsOneValue();
    ArgumentsSurvive(AB, parse, render);
    ArgumentsSurvive(BA, parse, render);
  }

  lemma LoneTurn(t: Turn, parse: Parse, render: Render)
    requires render(Obj(map[])) != "" && !t.System?
    ensures RoundTrips([t], parse, render) <==> NormalTurn(t, parse, render)
  {
    RoundTripExactly([t], parse, render);
    assert InFragment([t], parse, render) <==> NormalTurn(t, parse, render);
  }

  /** Null content is no string: the turn comes back with an empty one instead. */
  lemma NullContentIsReplaced(calls: seq<Call>, parse: Parse, render: Render)
    requires render(Obj(map[])) != "" && calls != []
    requires forall i :: 0 <= i < |calls| ==> NormalCall(calls[i], parse, render)
    ensures !RoundTrips([Assistant(None, calls)], parse, render)
    ensures Trip(Wires([Assistant(None, calls)], Wire), parse, render)
        == Some(Wires([Assistant(Some(""), calls)], Wire))
  {
    LoneTurn(Assistant(None, calls), parse, render);
    LoneTurn(Assistant(Some(""), calls), parse, render);
    NullIsEmpty(calls, parse);
  }

  lemma NullIsEmpty(calls: seq<Call>, parse: Parse)
    ensures var a, b := Wires([Assistant(None, calls)], Wire), Wires([Assistant(Some(""), calls)], Wire);
      AllToAnthropic(a, parse) == AllToAnthropic(b, parse) && Each(a, SystemEntries) == Each(b, SystemEntries)
  {
    var a, b := Wire(Assistant(None, calls)), Wire(Assistant(Some(""), calls));
    assert Wires([Assistant(None, calls)], Wire) == [a] && Wires([Assistant(Some(""), calls)], Wire) == [b];
    AssistantForward(None, calls, parse);
    AssistantForward(Some(""), calls, parse);
    AssistantFields(None, calls);
    AssistantFields(Some(""), calls);
    assert [a][1..] == [] && [b][1..] == [];
  }
}
