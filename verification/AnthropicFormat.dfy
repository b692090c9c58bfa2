/**
 What a conversation looks like between the two halves of the round trip
 (`src/middleware/request_transform.rs`): the Anthropic Messages format itself, written out.
 */
module AnthropicFormat {
  import opened Basics
  import opened Documents
  import opened Messages
  import opened RoundTrip
  import opened Sequences

  // ----- roles -----

  predicate Speaks(v: Value, role: string) {
    Get(v, "role") == Some(Str(role))
  }

  /** A list with one entry that answers a tool call, and nothing else. */
  predicate Answers(v: Value) {
    && Get(v, "content").Some? && Get(v, "content").value.Arr?
    && var items := Get(v, "content").value.items;
       |items| == 1 && Get(items[0], "type") == Some(Str("tool_result"))
  }

  /** An Anthropic message for an OpenAI message: assistants stay assistants, and answers of
      tools are said by the user. */
  predicate Voices(msg: Value, v: Value) {
    && (Speaks(msg, "assistant") ==> Speaks(v, "assistant"))
    && (Speaks(msg, "user") ==> Speaks(v, "user"))
    && (Speaks(msg, "tool") ==> Speaks(v, "user") && Answers(v))
  }

  function Unspoken(msg: Value): seq<Value> {
    if Speaks(msg, "system") || Speaks(msg, "developer") then [] else [msg]
  }

  lemma OneVoice(msg: Value, parse: Parse)
    requires ToAnthropic(msg, parse).Ok?
    ensures var out := ToAnthropic(msg, parse).value;
      |out| == |Unspoken(msg)| && forall k :: 0 <= k < |out| ==> Voices(Unspoken(msg)[k], out[k])
  {
    if Speaks(msg, "assistant") {
      assert AsStr(Get(msg, "role")) == Some("assistant");
    } else if Speaks(msg, "tool") {
      assert Get(ToolResult(msg), "type") == Some(Str("tool_result"));
    }
  }

  /** Whatever the messages hold: those that are not system messages are translated one by
      one, and only the two roles Anthropic knows are used for the three OpenAI has. */
  lemma {:induction false} OnlyTwoVoices(msgs: seq<Value>, parse: Parse)
    requires AllToAnthropic(msgs, parse).Ok?
    ensures var out, from := AllToAnthropic(msgs, parse).value, Each(msgs, Unspoken);
      |out| == |from| && forall k :: 0 <= k < |out| ==> Voices(from[k], out[k])
  {
    if msgs != [] {
      var first, rest := ToAnthropic(msgs[0], parse).value, AllToAnthropic(msgs[1..], parse).value;
      OneVoice(msgs[0], parse);
      OnlyTwoVoices(msgs[1..], parse);
      var out, from := first + rest, Unspoken(msgs[0]) + Each(msgs[1..], Unspoken);
      forall k | 0 <= k < |out| ensures Voices(from[k], out[k]) {
        if k >= |first| { assert out[k] == rest[k - |first|] && from[k] == Each(msgs[1..], Unspoken)[k - |first|]; }
      }
    }
  }

  // ----- typed conversations -----

  /** The block of a content part; an empty image or file is left out. */
  ghost predicate IsBlock(p: Part, blocks: seq<Value>) {
    match p
    case Text(s) => blocks == [Obj(map["type" := Str("text"), "text" := Str(s)])]
    case Image(url) =>
      && (url == "" ==> blocks == [])
      && (url != "" && !("data:" <= url) ==>
            blocks == [Obj(map["type" := Str("image"), "source" := Obj(map["type" := Str("url"), "url" := Str(url)])])])
      && (forall mime, data :: CleanData(url, mime, data) ==> blocks == [Obj(map[
            "type" := Str(if mime == "application/pdf" then "document" else "image"), "source" :=
            Obj(map["type" := Str("base64"), "media_type" := Str(mime), "data" := Str(data)])])])
    case FileUrl(url, _) =>
      blocks == if url == "" then [] else
        [Obj(map["type" := Str("document"), "source" := Obj(map["type" := Str("url"), "url" := Str(url)])])]
    case FileData(data, mime) =>
      var media := if mime.Some? then mime.value else "application/pdf";
      blocks == if data == "" then [] else
        [Obj(map["type" := Str("document"), "source" := Obj(map[
           "type" := Str(if media == "text/plain" then "text" else "base64"), "media_type" := Str(media),
               "data" := Str(data)])])]
  }

  lemma TextIsBlock(s: string)
    ensures IsBlock(Text(s), ItemBlocks(PartWire(Text(s))))
  {
    var w := PartWire(Text(s));
    assert TypeOf(w) == Some("text") && Get(w, "text") == Some(Str(s)) && Get(w, "cache_control") == None;
  }

  lemma ImageIsBlock(url: string)
    ensures IsBlock(Image(url), ItemBlocks(PartWire(Image(url))))
  {
    WireOfImage(url);
    forall mime, data | CleanData(url, mime, data)
      ensures ItemBlocks(PartWire(Image(url))) == [Obj(map[
          "type" := Str(if mime == "application/pdf" then "document" else "image"), "source" :=
          Obj(map["type" := Str("base64"), "media_type" := Str(mime), "data" := Str(data)])])]
    {
      NormalSplits(url, mime, data);
    }
  }

  lemma FileIsBlock(p: Part)
    requires p.FileUrl? || p.FileData?
    ensures IsBlock(p, ItemBlocks(PartWire(p)))
  {
    match p
    case FileUrl(url, mime) => FileFields("file_url", Str(url), OptStr(mime));
    case FileData(data, mime) => FileFields("file_data", Str(data), OptStr(mime));
  }

  lemma PartIsBlock(p: Part)
    ensures IsBlock(p, ItemBlocks(PartWire(p)))
  {
    match p
    case Text(s) => TextIsBlock(s);
    case Image(url) => ImageIsBlock(url);
    case _ => FileIsBlock(p);
  }

  /** The input of a call: its arguments parsed, `{}` when there are none. */
  predicate IsInput(c: Call, parse: Parse, input: Value) {
    if c.arguments == "" then input == Obj(map[]) else parse(c.arguments) == Ok(input)
  }

  predicate IsToolUse(c: Call, parse: Parse, v: Value) {
    && v.Object? && Get(v, "input").Some? && IsInput(c, parse, Get(v, "input").value)
    && v == Obj(map["type" := Str("tool_use"), "id" := Str(c.id), "name" := Str(c.name),
         "input" := Get(v, "input").value])
  }

  lemma CallIsToolUse(c: Call, parse: Parse, input: Value)
    requires CallInput(CallWire(c), parse) == Ok(input)
    ensures IsToolUse(c, parse, ToolUse(CallWire(c), input))
  {
    CallFields(c);
    assert Get(ToolUse(CallWire(c), input), "input") == Some(input);
  }

  lemma {:induction false} CallsAreToolUses(calls: seq<Call>, parse: Parse)
    requires ToolUses(Wires(calls, CallWire), parse).Ok?
    ensures var uses := ToolUses(Wires(calls, CallWire), parse).value;
      |uses| == |calls| && forall k :: 0 <= k < |calls| ==> IsToolUse(calls[k], parse, uses[k])
  {
    if calls != [] {
      var wires := Wires(calls, CallWire);
      assert wires[1..] == Wires(calls[1..], CallWire);
      CallsAreToolUses(calls[1..], parse);
      CallIsToolUse(calls[0], parse, CallInput(wires[0], parse).value);
    }
  }

  function BlocksOf(p: Part): seq<Value> {
    ItemBlocks(PartWire(p))
  }

  function SpokenText(content: Option<string>): seq<Value> {
    if content == None || content == Some("") then []
        else [Obj(map["type" := Str("text"), "text" := Str(content.value)])]
  }

  ghost predicate AreToolUses(calls: seq<Call>, parse: Parse, uses: seq<Value>) {
    |uses| == |calls| && forall k :: 0 <= k < |calls| ==> IsToolUse(calls[k], parse, uses[k])
  }

  /** The Anthropic message of a turn. */
  ghost predicate IsMessage(t: Turn, parse: Parse, v: Value) {
    match t
    case System(_, _) => false
    case User(text) => v == Obj(map["role" := Str("user"), "content" := Str(text)])
    case Parts(parts) =>
      && v == Obj(map["role" := Str("user"), "content" := Arr(Each(parts, BlocksOf))])
      && forall k :: 0 <= k < |parts| ==> IsBlock(parts[k], BlocksOf(parts[k]))
    case Assistant(content, calls) =>
      exists uses :: AreToolUses(calls, parse, uses)
        && v == Obj(map["role" := Str("assistant"), "content" := Arr(SpokenText(content) + uses)])
    case Tool(id, text) =>
      v == Obj(map["role" := Str("user"), "content" := Arr([
             Obj(map["type" := Str("tool_result"), "tool_use_id" := Str(id), "content" := Str(text)])])])
  }

  lemma {:induction false} PartsBlocks(parts: seq<Part>)
    ensures Each(Wires(parts, PartWire), ItemBlocks) == Each(parts, BlocksOf)
  {
    if parts != [] {
      assert Wires(parts, PartWire)[1..] == Wires(parts[1..], PartWire);
      PartsBlocks(parts[1..]);
    }
  }

  lemma PartsMessage(parts: seq<Part>, parse: Parse)
    ensures ToAnthropic(Wire(Parts(parts)), parse).Ok? && |ToAnthropic(Wire(Parts(parts)), parse).value| == 1
    ensures IsMessage(Parts(parts), parse, ToAnthropic(Wire(Parts(parts)), parse).value[0])
  {
    var wires := Wires(parts, PartWire);
    SaidFields(Str("user"), Arr(wires));
    PartsBlocks(parts);
    forall k | 0 <= k < |parts| ensures IsBlock(parts[k], BlocksOf(parts[k])) { PartIsBlock(parts[k]); }
    if parts == [] { assert wires == []; }
    assert UserMessage(Wire(Parts(parts))) == Said(Str("user"), Arr(Each(wires, ItemBlocks)));
  }

  lemma AssistantMessages(content: Option<string>, calls: seq<Call>, parse: Parse)
    requires ToAnthropic(Wire(Assistant(content, calls)), parse).Ok?
    ensures |ToAnthropic(Wire(Assistant(content, calls)), parse).value| == 1
    ensures IsMessage(Assistant(content, calls), parse, ToAnthropic(Wire(Assistant(content, calls)), parse).value[0])
  {
    AssistantForward(content, calls, parse);
    CallsAreToolUses(calls, parse);
    assert AreToolUses(calls, parse, ToolUses(Wires(calls, CallWire), parse).value);
    assert Words(content) == SpokenText(content);
  }

  lemma ToolMessages(id: string, text: string, parse: Parse)
    ensures ToAnthropic(Wire(Tool(id, text)), parse).Ok? && |ToAnthropic(Wire(Tool(id, text)), parse).value| == 1
    ensures IsMessage(Tool(id, text), parse, ToAnthropic(Wire(Tool(id, text)), parse).value[0])
  {
    var w := Wire(Tool(id, text));
    assert Get(w, "role") == Some(Str("tool")) && Get(w, "tool_call_id") == Some(Str(id))
        && Get(w, "content") == Some(Str(text));
  }

  ghost predicate AreMessages(turns: seq<Turn>, parse: Parse, out: seq<Value>) {
    if turns == [] then out == []
    else out != [] && IsMessage(turns[0], parse, out[0]) && AreMessages(turns[1..], parse, out[1..])
  }

  function Voiced(t: Turn): seq<Turn> {
    if t.System? then [] else [t]
  }

  lemma TurnMessage(t: Turn, parse: Parse)
    requires ToAnthropic(Wire(t), parse).Ok?
    ensures var out := ToAnthropic(Wire(t), parse).value;
      if t.System? then out == [] else |out| == 1 && IsMessage(t, parse, out[0])
  {
    match t
    case System(developer, text) => SaidFields(Str(if developer then "developer" else "system"), Str(text));
    case User(text) => SaidFields(Str("user"), Str(text));
    case Parts(parts) => PartsMessage(parts, parse);
    case Assistant(content, calls) => AssistantMessages(content, calls, parse);
    case Tool(id, text) => ToolMessages(id, text, parse);
  }

  /** Every conversation that is accepted goes out in the Anthropic format, turn by turn. */
  lemma {:induction false} ConversationFormat(conv: seq<Turn>, parse: Parse)
    requires AllToAnthropic(Wires(conv, Wire), parse).Ok?
    ensures AreMessages(Each(conv, Voiced), parse, AllToAnthropic(Wires(conv, Wire), parse).value)
  {
    if conv != [] {
      var wires := Wires(conv, Wire);
      assert wires[1..] == Wires(conv[1..], Wire);
      TurnMessage(conv[0], parse);
      ConversationFormat(conv[1..], parse);
      var first, rest := ToAnthropic(wires[0], parse).value, AllToAnthropic(wires[1..], parse).value;
      if conv[0].System? {
        assert [] + rest == rest && Each(conv, Voiced) == Each(conv[1..], Voiced);
      } else {
        assert (first + rest)[0] == first[0] && (first + rest)[1..] == rest;
        assert Each(conv, Voiced)[0] == conv[0] && Each(conv, Voiced)[1..] == Each(conv[1..], Voiced);
      }
    }
  }

  // ----- system text -----

  function SystemOf(t: Turn): seq<Value> {
    if t.System? then [Obj(map["type" := Str("text"), "text" := Str(t.text)])] else []
  }

  lemma OneSystem(t: Turn)
    ensures SystemEntries(Wire(t)) == SystemOf(t)
  {
    match t
    case System(developer, text) => SaidFields(Str(if developer then "developer" else "system"), Str(text));
    case User(text) => SaidFields(Str("user"), Str(text));
    case Parts(parts) => SaidFields(Str("user"), Arr(Wires(parts, PartWire)));
    case Assistant(content, calls) => AssistantFields(content, calls);
    case Tool(id, text) => assert Get(Wire(Tool(id, text)), "role") == Some(Str("tool"));
  }

  /** System and developer turns go out as text blocks of the system prompt, in order. */
  lemma {:induction false} SystemFormat(conv: seq<Turn>)
    ensures Each(Wires(conv, Wire), SystemEntries) == Each(conv, SystemOf)
  {
    if conv != [] {
      assert Wires(conv, Wire)[1..] == Wires(conv[1..], Wire);
      OneSystem(conv[0]);
      SystemFormat(conv[1..]);
    }
  }

  // ----- rejection -----

  /** The first arguments that do not parse, by their error. */
  function BadArguments(calls: seq<Call>, parse: Parse): Option<string> {
    if calls == [] then None
    else if calls[0].arguments != "" && parse(calls[0].arguments).Err? then Some(parse(calls[0].arguments).error)
    else BadArguments(calls[1..], parse)
  }

  function FirstBad(conv: seq<Turn>, parse: Parse): Option<string> {
    if conv == [] then None
    else
      var bad := if conv[0].Assistant? then BadArguments(conv[0].calls, parse) else None;
      if bad.Some? then bad else FirstBad(conv[1..], parse)
  }

  /** A result is an error exactly when there is something bad, and names it. */
  predicate Rejects<T>(r: Result<T, TransformError>, bad: Option<string>) {
    match bad
    case None => r.Ok?
    case Some(e) => r == Err(InvalidRequest("invalid tool call arguments: " + e))
  }

  lemma {:induction false} CallsRejected(calls: seq<Call>, parse: Parse)
    ensures Rejects(ToolUses(Wires(calls, CallWire), parse), BadArguments(calls, parse))
  {
    if calls != [] {
      CallFields(calls[0]);
      assert Wires(calls, CallWire)[1..] == Wires(calls[1..], CallWire);
      CallsRejected(calls[1..], parse);
    }
  }

  lemma TurnRejected(t: Turn, parse: Parse)
    ensures Rejects(ToAnthropic(Wire(t), parse), if t.Assistant? then BadArguments(t.calls, parse) else None)
  {
    match t
    case System(developer, text) => SaidFields(Str(if developer then "developer" else "system"), Str(text));
    case User(text) => SaidFields(Str("user"), Str(text));
    case Parts(parts) => PartsMessage(parts, parse);
    case Assistant(content, calls) =>
      AssistantForward(content, calls, parse);
      CallsRejected(calls, parse);
    case Tool(id, text) => ToolMessages(id, text, parse);
  }

  /** A conversation is rejected exactly when some call has arguments that do not parse, with
      the error of the first. */
  lemma {:induction false} RejectedExactly(conv: seq<Turn>, parse: Parse)
    ensures Rejects(AllToAnthropic(Wires(conv, Wire), parse), FirstBad(conv, parse))
  {
    if conv != [] {
      assert Wires(conv, Wire)[1..] == Wires(conv[1..], Wire);
      TurnRejected(conv[0], parse);
      RejectedExactly(conv[1..], parse);
    }
  }

  // ----- beyond plain turns -----

  predicate IsToolUseBlock(v: Value) {
    Get(v, "type") == Some(Str("tool_use"))
  }

  function Others(blocks: seq<Value>): seq<Value> {
    if blocks == [] then []
    else (if IsToolUseBlock(blocks[0]) then [] else [blocks[0]]) + Others(blocks[1..])
  }

  lemma {:induction false} OthersKept(blocks: seq<Value>)
    ensures Each(blocks, NotToolUse) == Others(blocks)
  {
    if blocks != [] { OthersKept(blocks[1..]); }
  }

  /** The content is these blocks and then `n` more. */
  ghost predicate ContentIs(v: Value, blocks: seq<Value>, n: nat) {
    exists uses :: |uses| == n && Get(v, "content") == Some(Arr(blocks + uses))
  }

  /** Content blocks of an assistant message stand in for its content and are sent on as they
      are, but for tool uses; those come from its calls. */
  lemma ContentBlocksFirst(msg: Value, blocks: seq<Value>, parse: Parse)
    requires Speaks(msg, "assistant") && ToAnthropic(msg, parse).Ok?
    requires Get(msg, "content_blocks") == Some(Arr(blocks))
    ensures var out := ToAnthropic(msg, parse).value;
      |out| == 1 && ContentIs(out[0], Others(blocks), |CallsIn(msg)|)
  {
    assert AsStr(Get(msg, "role")) == Some("assistant");
    OthersKept(blocks);
    OneUseEach(CallsIn(msg), parse);
    var uses := ToolUses(CallsIn(msg), parse).value;
    assert Get(ToAnthropic(msg, parse).value[0], "content") == Some(Arr(Others(blocks) + uses));
  }

  lemma {:induction false} OneUseEach(calls: seq<Value>, parse: Parse)
    requires ToolUses(calls, parse).Ok?
    ensures |ToolUses(calls, parse).value| == |calls|
  {
    if calls != [] { OneUseEach(calls[1..], parse); }
  }

  /** A marked text item becomes a marked text block, and a marked call a tool use with the
      same mark. */
  lemma MarksKept(item: Value, call: Value, input: Value)
    requires Get(item, "type") == Some(Str("text")) && Get(item, "cache_control").Some?
    ensures |ItemBlocks(item)| == 1 && Get(ItemBlocks(item)[0], "text") == Get(item, "text")
    ensures Get(ItemBlocks(item)[0], "cache_control") == Some(Obj(map["type" := Str("ephemeral")]))
    ensures Get(ToolUse(call, input), "cache_control") == Get(call, "cache_control")
  {
    assert TypeOf(item) == Some("text");
  }
}
