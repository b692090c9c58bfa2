/**
 Anthropic to OpenAI chat: the event translator (`anthropic_chat_stream`,
 `anthropic_chat_chunk` in `src/middleware/stream_transform.rs`) and its buffered
 counterpart (`anthropic_chat_to_openai` in `src/middleware/response_transform.rs`).
 */
module ChatStream {
  import opened Basics
  import opened Documents
  import opened Sequences

  // ----- shared helpers -----

  lemma WrapAdd(a: int, b: int)
    ensures Wrap64(Wrap64(a) + b) == Wrap64(a + b)
  {
    var m := 0x1_0000_0000_0000_0000;
    var q := (a - I64_MIN) / m;
    assert Wrap64(a) == a - q * m;
    assert (a + b - I64_MIN - q * m) % m == (a + b - I64_MIN) % m;
  }

  function AsI64(v: Option<Value>): Option<int> {
    if v.Some? && v.value.Int? && v.value.i <= I64_MAX then Some(v.value.i) else None
  }

  /** `i64_field` of the stream: anything but an `i64` counts as zero. */
  function StreamField(v: Option<Value>, key: string): (r: int)
    ensures I64_MIN <= r <= I64_MAX
  {
    var n := AsI64(GetIn(v, key));
    if n.Some? then n.value else 0
  }

  /** `i64_field` of the buffered form: other numbers go through `as_f64() as i64`. */
  function BufferedField(v: Option<Value>, key: string, truncate: Value -> Integer): int {
    var f := GetIn(v, key);
    var n := AsI64(f);
    if n.Some? then n.value else if f.Some? && (f.value.Int? || f.value.Float?) then truncate(f.value) else 0
  }

  /** `transform_finish_reason` under strict compliance. */
  function FinishReason(stop: Option<string>): string {
    if stop == Some("tool_use") then "tool_calls" else if stop == Some("max_tokens") then "length" else "stop"
  }

  const READ := "cache_read_input_tokens"
  const CREATION := "cache_creation_input_tokens"

  /** Echo a cache bucket when the source has it. */
  function Echo(m: map<string, Value>, source: Option<Value>, key: string): map<string, Value> {
    var v := GetIn(source, key);
    if v.Some? then m[key := v.value] else m
  }

  function EchoCache(m: map<string, Value>, source: Option<Value>): map<string, Value> {
    Echo(Echo(m, source, READ), source, CREATION)
  }

  // ----- the stream -----

  /** A fragment of a tool call; `id` and `name` only on the opening fragment. */
  datatype ToolDelta = ToolDelta(index: Option<int>, head: Option<(Value, Value)>, arguments: Value)

  datatype Chunk = Chunk(model: string, content: Option<Value>, tools: seq<ToolDelta>, finish: Value,
      usage: Option<map<string, Value>>)

  datatype Output = Nothing | Data(chunk: Chunk) | ErrorThenDone(finish: Value) | DoneMarker | Rejected

  datatype State = State(toolIndex: Option<int>, usage: Option<map<string, Value>>, model: Option<string>)

  const INITIAL := State(None, None, None)

  function TypeOf(v: Value): Option<string> {
    AsStr(Get(v, "type"))
  }

  /** The usage object kept from `message_start`. */
  function StartUsage(usage: Option<Value>): map<string, Value> {
    var read, creation := StreamField(usage, READ), StreamField(usage, CREATION);
    var base: map<string, Value> := map["prompt_tokens" := Int(Wrap64(StreamField(usage, "input_tokens") + read
        + creation))];
    if read != 0 || creation != 0 then EchoCache(base, usage) else base
  }

  /** The usage object sent with `message_delta`. */
  function FinalUsage(kept: Option<map<string, Value>>, usage: Value): map<string, Value> {
    var output := StreamField(Some(usage), "output_tokens");
    var k: map<string, Value> := if kept.Some? then kept.value else map[];
    var prompt := StreamField(Some(Obj(k)), "prompt_tokens");
    (map["completion_tokens" := Int(output)] + k)["total_tokens" := Int(Wrap64(prompt + output))]
  }

  predicate StartsMessage(v: Value) {
    TypeOf(v) == Some("message_start") && GetIn(Get(v, "message"), "usage").Some?
  }

  predicate EndsMessage(v: Value) {
    TypeOf(v) == Some("message_delta") && Get(v, "usage").Some?
  }

  predicate OpensTool(v: Value) {
    TypeOf(v) == Some("content_block_start") && AsStr(GetIn(Get(v, "content_block"), "type")) == Some("tool_use")
  }

  /** `delta.partial_json`, unless null. */
  function PartialJson(v: Value): Option<Value> {
    var p := GetIn(Get(v, "delta"), "partial_json");
    if p == Some(Null) then None else p
  }

  /** The index quirk: absent or zero gives zero, anything else the next number. */
  function NextTool(index: Option<int>): Option<int> {
    if index.Some? && index.value != 0 then Some(index.value + 1) else Some(0)
  }

  function ToolDeltas(index: Option<int>, v: Value): seq<ToolDelta> {
    if OpensTool(v) then
      var block := Get(v, "content_block");
      [ToolDelta(index, Some((OrNull(GetIn(block, "id")), OrNull(GetIn(block, "name")))), Str(""))]
    else if TypeOf(v) == Some("content_block_delta") && PartialJson(v).Some? then
      [ToolDelta(index, None, PartialJson(v).value)]
    else []
  }

  predicate IsError(v: Value) {
    TypeOf(v) == Some("error") && Get(v, "error").Some?
  }

  /** `anthropic_chat_chunk`: the state afterwards. */
  function AfterChunk(s: State, v: Value): State {
    if IsError(v) then s
    else if StartsMessage(v) then
      var model := AsStr(GetIn(Get(v, "message"), "model"));
      s.(model := Some(if model.Some? then model.value else ""),
          usage := Some(StartUsage(GetIn(Get(v, "message"), "usage"))))
    else if EndsMessage(v) then s
    else if OpensTool(v) then s.(toolIndex := NextTool(s.toolIndex))
    else s
  }

  function ModelOf(s: State): string {
    if s.model.Some? then s.model.value else ""
  }

  /** `anthropic_chat_chunk`: what goes out. */
  function ChunkOutput(s: State, v: Value): Output {
    var t := AfterChunk(s, v);
    if IsError(v) then ErrorThenDone(OrNull(GetIn(Get(v, "error"), "type")))
    else if StartsMessage(v) then Data(Chunk(ModelOf(t), Some(Str("")), [], Null, None))
    else if EndsMessage(v) then
      Data(Chunk(ModelOf(s), None, [], Str(FinishReason(AsStr(GetIn(Get(v, "delta"), "stop_reason")))),
                 Some(FinalUsage(s.usage, Get(v, "usage").value))))
    else Data(Chunk(ModelOf(s), GetIn(Get(v, "delta"), "text"), ToolDeltas(t.toolIndex, v), Null, None))
  }

  /** One SSE event: ping or block stop, `message_stop`, a parsed payload, or one that does
      not parse. */
  datatype Input = Ignored | StopEvent | Payload(value: Value) | Malformed

  function After(s: State, i: Input): State {
    if i.Payload? then AfterChunk(s, i.value) else s
  }

  function Translate(s: State, i: Input): Output {
    match i
    case Ignored => Nothing
    case StopEvent => DoneMarker
    case Payload(v) => ChunkOutput(s, v)
    case Malformed => Rejected
  }

  /** A payload that does not parse ends the stream. */
  function TranslateAll(s: State, inputs: seq<Input>): seq<Output>
    decreases |inputs|
  {
    if inputs == [] then []
    else [Translate(s, inputs[0])] + if inputs[0].Malformed? then [] else TranslateAll(After(s, inputs[0]), inputs[1..])
  }

  /** `StreamState` and `anthropic_chat_chunk` on it. */
  class Translator {
    var toolIndex: Option<int>
    var usage: Option<map<string, Value>>
    var model: Option<string>

    function View(): State
      reads this
    {
      State(toolIndex, usage, model)
    }

    constructor ()
      ensures View() == INITIAL
    {
      toolIndex, usage, model := None, None, None;
    }

    method Apply(i: Input) returns (out: Output)
      modifies this
      ensures out == Translate(old(View()), i) && View() == After(old(View()), i)
    {
      match i {
        case Ignored => return Nothing;
        case StopEvent => return DoneMarker;
        case Malformed => return Rejected;
        case Payload(v) =>
          var before := if model.Some? then model.value else "";
          if IsError(v) { return ErrorThenDone(OrNull(GetIn(Get(v, "error"), "type"))); }
          if StartsMessage(v) {
            var name := AsStr(GetIn(Get(v, "message"), "model"));
            model := Some(if name.Some? then name.value else "");
            usage := Some(StartUsage(GetIn(Get(v, "message"), "usage")));
            return Data(Chunk(model.value, Some(Str("")), [], Null, None));
          }
          if EndsMessage(v) {
            var stop := AsStr(GetIn(Get(v, "delta"), "stop_reason"));
            return Data(Chunk(before, None, [], Str(FinishReason(stop)),
                Some(FinalUsage(usage, Get(v, "usage").value))));
          }
          if OpensTool(v) { toolIndex := NextTool(toolIndex); }
          return Data(Chunk(before, GetIn(Get(v, "delta"), "text"), ToolDeltas(toolIndex, v), Null, None));
      }
    }
  }

  // ----- what an OpenAI client accumulates -----

  datatype Call = Call(id: Value, name: Value, arguments: string)

  datatype Seen = Seen(text: string, calls: map<int, Call>, finish: Option<string>, usage: Option<map<string, Value>>)

  const NOTHING := Seen("", map[], None, None)

  function TextOrEmpty(v: Value): string {
    if v.Str? then v.s else ""
  }

  /** Fragments of one index are joined; an opening fragment names the call. */
  function Join(calls: map<int, Call>, d: ToolDelta): map<int, Call> {
    if d.index.None? then calls else
    var k := d.index.value;
    var before := if k in calls then calls[k] else Call(Null, Null, "");
    var named := if d.head.Some? then before.(id := d.head.value.0, name := d.head.value.1) else before;
    calls[k := named.(arguments := named.arguments + TextOrEmpty(d.arguments))]
  }

  function JoinAll(calls: map<int, Call>, ds: seq<ToolDelta>): map<int, Call>
    decreases |ds|
  {
    if ds == [] then calls else JoinAll(Join(calls, ds[0]), ds[1..])
  }

  function See(seen: Seen, o: Output): Seen {
    if !o.Data? then seen else
    var c := o.chunk;
    Seen(seen.text + (if c.content.Some? then TextOrEmpty(c.content.value) else ""),
         JoinAll(seen.calls, c.tools),
         if c.finish.Str? then Some(c.finish.s) else seen.finish,
         if c.usage.Some? then c.usage else seen.usage)
  }

  function SeeAll(seen: Seen, outputs: seq<Output>): Seen
    decreases |outputs|
  {
    if outputs == [] then seen else SeeAll(See(seen, outputs[0]), outputs[1..])
  }

  // ----- the buffered form -----

  function ItemText(item: Value): string {
    if TypeOf(item) == Some("text") then TextOrEmpty(OrNull(Get(item, "text"))) else ""
  }

  function ItemCalls(item: Value, render: Value -> string): seq<Call> {
    if TypeOf(item) == Some("tool_use") then
      [Call(OrNull(Get(item, "id")), OrNull(Get(item, "name")), render(OrNull(Get(item, "input"))))]
    else []
  }

  function BufferedText(items: seq<Value>): string {
    if items == [] then "" else ItemText(items[0]) + BufferedText(items[1..])
  }

  function BufferedCalls(items: seq<Value>, render: Value -> string): seq<Call> {
    if items == [] then [] else ItemCalls(items[0], render) + BufferedCalls(items[1..], render)
  }

  function BufferedUsage(usage: Option<Value>, truncate: Value -> Integer): map<string, Value> {
    var input, output := BufferedField(usage, "input_tokens", truncate),
        BufferedField(usage, "output_tokens", truncate);
    var creation, read := BufferedField(usage, CREATION, truncate), BufferedField(usage, READ, truncate);
    var base: map<string, Value> := map[
      "prompt_tokens" := Int(Wrap64(input + creation + read)),
      "completion_tokens" := Int(Wrap64(output)),
      "total_tokens" := Int(Wrap64(input + output + creation + read))];
    if creation != 0 || read != 0 then EchoCache(base, usage) else base
  }

  datatype Completion = Completion(text: string, calls: seq<Call>, finish: string, usage: map<string, Value>)

  function Items(response: Value): seq<Value> {
    var c := AsArray(Get(response, "content"));
    if c.Some? then c.value else []
  }

  /** `anthropic_chat_to_openai`: walk the content blocks once. */
  method AnthropicChatToOpenAi(response: Value, render: Value -> string, truncate: Value -> Integer)
      returns (r: Completion)
    ensures r == Completion(BufferedText(Items(response)), BufferedCalls(Items(response), render),
                            FinishReason(AsStr(Get(response, "stop_reason"))),
                                BufferedUsage(Get(response, "usage"), truncate))
    ensures Reports(AsStr(Get(response, "stop_reason")), r.finish)
  {
    var text, calls := WalkContent(Items(response), render);
    r := Completion(text, calls, FinishReason(AsStr(Get(response, "stop_reason"))),
        BufferedUsage(Get(response, "usage"), truncate));
  }

  method WalkContent(items: seq<Value>, render: Value -> string) returns (content: string, calls: seq<Call>)
    ensures content == BufferedText(items) && calls == BufferedCalls(items, render)
  {
    content, calls := "", [];
    for i := 0 to |items|
      invariant content + BufferedText(items[i..]) == BufferedText(items)
      invariant calls + BufferedCalls(items[i..], render) == BufferedCalls(items, render)
    {
      var item := items[i];
      assert items[i..][0] == item && items[i..][1..] == items[i + 1..];
      Assoc(content, ItemText(item), BufferedText(items[i + 1..]));
      Assoc(calls, ItemCalls(item, render), BufferedCalls(items[i + 1..], render));
      assert content + "" == content && calls + [] == calls;
      if TypeOf(item) == Some("text") {
        content := content + ItemText(item);
      } else if TypeOf(item) == Some("tool_use") {
        calls := calls + ItemCalls(item, render);
      }
    }
    assert items[|items|..] == [];
  }

  // ----- why the message stopped -----

  /** OpenAI's word for an Anthropic stop reason. */
  predicate Reports(stop: Option<string>, finish: string) {
    && (finish == "length" <==> stop == Some("max_tokens"))
    && (finish == "tool_calls" <==> stop == Some("tool_use"))
    && (finish == "stop" <==> stop != Some("max_tokens") && stop != Some("tool_use"))
  }

  /** The stop reason of the last `message_delta` with usage before a payload that does not
      parse. */
  function LastStop(inputs: seq<Input>): Option<Option<string>> {
    if inputs == [] || inputs[0].Malformed? then None
    else
      var later := LastStop(inputs[1..]);
      if later.Some? || !inputs[0].Payload? then later else
      var v := inputs[0].value;
      if Get(v, "type") == Some(Str("message_delta")) && Get(v, "usage").Some? then
        Some(AsStr(GetIn(Get(v, "delta"), "stop_reason")))
      else None
  }

  /** Whatever the stream, the finish reason a client sees is the one the last such event
      gives. */
  lemma {:induction false} StreamReportsStop(s: State, seen: Seen, inputs: seq<Input>)
    ensures var r := SeeAll(seen, TranslateAll(s, inputs));
      match LastStop(inputs)
      case None => r.finish == seen.finish
      case Some(stop) => r.finish.Some? && Reports(stop, r.finish.value)
    decreases |inputs|
  {
    if inputs != [] {
      var first := Translate(s, inputs[0]);
      FinishSeen(s, seen, inputs[0]);
      if inputs[0].Malformed? {
        assert TranslateAll(s, inputs) == [first] && [first][1..] == [];
      } else {
        var rest := TranslateAll(After(s, inputs[0]), inputs[1..]);
        assert ([first] + rest)[0] == first && ([first] + rest)[1..] == rest;
        StreamReportsStop(After(s, inputs[0]), See(seen, first), inputs[1..]);
      }
    }
  }

  lemma FinishSeen(s: State, seen: Seen, i: Input)
    ensures var r := See(seen, Translate(s, i)).finish;
      if i.Payload? && Get(i.value, "type") == Some(Str("message_delta")) && Get(i.value, "usage").Some? then
        r.Some? && Reports(AsStr(GetIn(Get(i.value, "delta"), "stop_reason")), r.value)
      else r == seen.finish
  {
  }

  // ----- whose words they are -----

  /** The model named last: by a `message_start` that reports usage, as a string or not at all. */
  function ModelAfter(model: string, inputs: seq<Input>): string
    decreases |inputs|
  {
    if inputs == [] then model else ModelAfter(ModelNamed(model, inputs[0]), inputs[1..])
  }

  function ModelNamed(model: string, i: Input): string {
    if i.Payload? && Get(i.value, "type") == Some(Str("message_start"))
       && GetIn(Get(i.value, "message"), "usage").Some? then
      match GetIn(Get(i.value, "message"), "model")
      case Some(Str(name)) => name
      case _ => ""
    else model
  }

  /** Every chunk goes out under the model named last before or with it. */
  lemma {:induction false} ModelCarried(s: State, inputs: seq<Input>, k: nat)
    requires k < |TranslateAll(s, inputs)| && TranslateAll(s, inputs)[k].Data?
    ensures k < |inputs| && TranslateAll(s, inputs)[k].chunk.model == ModelAfter(ModelOf(s), inputs[..k + 1])
    decreases |inputs|
  {
    var rest := if inputs[0].Malformed? then [] else TranslateAll(After(s, inputs[0]), inputs[1..]);
    assert TranslateAll(s, inputs) == [Translate(s, inputs[0])] + rest;
    ModelStep(s, inputs[0]);
    if k == 0 {
      assert inputs[..1][1..] == [];
    } else {
      ModelCarried(After(s, inputs[0]), inputs[1..], k - 1);
      assert inputs[..k + 1][1..] == inputs[1..][..k];
    }
    assert inputs[..k + 1][0] == inputs[0];
  }

  lemma ModelStep(s: State, i: Input)
    ensures ModelOf(After(s, i)) == ModelNamed(ModelOf(s), i)
    ensures Translate(s, i).Data? ==> Translate(s, i).chunk.model == ModelNamed(ModelOf(s), i)
  {
  }

  // ----- what was used -----

  /** The bucket of a usage object, echoed under the same name when `echoed`. */
  predicate Echoed(r: map<string, Value>, usage: Value, key: string, echoed: bool) {
    var v := Get(usage, key);
    if echoed && v.Some? then key in r && r[key] == v.value else key !in r
  }

  /** Prompt tokens include both cache buckets; the buckets themselves are sent when either
      is not zero. */
  lemma BufferedCounts(usage: Value, truncate: Value -> Integer)
    ensures var r := BufferedUsage(Some(usage), truncate);
      var input, output := BufferedField(Some(usage), "input_tokens", truncate),
          BufferedField(Some(usage), "output_tokens", truncate);
      var read := BufferedField(Some(usage), "cache_read_input_tokens", truncate);
      var creation := BufferedField(Some(usage), "cache_creation_input_tokens", truncate);
      && "prompt_tokens" in r && r["prompt_tokens"] == Int(Wrap64(input + read + creation))
      && "completion_tokens" in r && r["completion_tokens"] == Int(Wrap64(output))
      && "total_tokens" in r && r["total_tokens"] == Int(Wrap64(input + read + creation + output))
      && Echoed(r, usage, "cache_read_input_tokens", read != 0 || creation != 0)
      && Echoed(r, usage, "cache_creation_input_tokens", read != 0 || creation != 0)
  {
  }

  // ----- one message, buffered and streamed -----

  /** A content block; one that is neither text nor a tool use is `OtherBlock`. */
  datatype Block = TextBlock(text: string) | ToolUse(id: Value, name: Value, input: Value) | OtherBlock

  datatype Message = Message(content: seq<Block>, stopReason: Option<string>, usage: Value)

  /** What one streamed event says. */
  datatype Say =
    | Begin(usage: Value) | OpenTool(id: Value, name: Value) | TextPiece(text: string) | JsonPiece(json: string)
    | Quiet | Finish(stop: Option<string>, usage: Value) | Halt

  /** A payload that adds nothing: the start of a block that is no tool, a delta of another
      kind, an event of another type. */
  predicate Mute(v: Value) {
    && !IsError(v) && !StartsMessage(v) && !EndsMessage(v) && !OpensTool(v) && ToolDeltas(None, v) == []
    && TextOrEmpty(OrNull(GetIn(Get(v, "delta"), "text"))) == ""
  }

  /** The payload says this, whatever else it carries. */
  ghost predicate Says(i: Input, e: Say) {
    match e
    case Quiet => i.Ignored? || (i.Payload? && Mute(i.value))
    case Halt => i.StopEvent?
    case Begin(u) =>
      i.Payload? && TypeOf(i.value) == Some("message_start") && GetIn(Get(i.value, "message"), "usage") == Some(u)
    case Finish(stop, u) =>
      && i.Payload? && TypeOf(i.value) == Some("message_delta") && Get(i.value, "usage") == Some(u)
      && AsStr(GetIn(Get(i.value, "delta"), "stop_reason")) == stop
    case OpenTool(id, name) =>
      && i.Payload? && OpensTool(i.value) && Get(i.value, "delta") == None
      && GetIn(Get(i.value, "content_block"), "id") == Some(id)
      && GetIn(Get(i.value, "content_block"), "name") == Some(name)
    case TextPiece(t) =>
      && i.Payload? && TypeOf(i.value) == Some("content_block_delta") && PartialJson(i.value) == None
      && GetIn(Get(i.value, "delta"), "text") == Some(Str(t))
    case JsonPiece(j) =>
      && i.Payload? && TypeOf(i.value) == Some("content_block_delta") && PartialJson(i.value) == Some(Str(j))
      && GetIn(Get(i.value, "delta"), "text") == None
  }

  /** More arguments for the call at index 0, if there is one. */
  function Grown(calls: map<int, Call>, more: string): map<int, Call> {
    if 0 in calls then calls[0 := calls[0].(arguments := calls[0].arguments + more)] else calls
  }

  /** What a client has seen after an event that says `e`; `usage` is the one kept so far. */
  function Noted(seen: Seen, usage: Option<map<string, Value>>, e: Say): Seen {
    match e
    case TextPiece(t) => seen.(text := seen.text + t)
    case OpenTool(id, name) => seen.(calls := Join(seen.calls, ToolDelta(Some(0), Some((id, name)), Str(""))))
    case JsonPiece(j) => seen.(calls := Grown(seen.calls, j))
    case Finish(stop, u) => seen.(finish := Some(FinishReason(stop)), usage := Some(FinalUsage(usage, u)))
    case _ => seen
  }

  function Kept(usage: Option<map<string, Value>>, e: Say): Option<map<string, Value>> {
    if e.Begin? then Some(StartUsage(Some(e.usage))) else usage
  }

  function NotedAll(seen: Seen, usage: Option<map<string, Value>>, says: seq<Say>): Seen
    decreases |says|
  {
    if says == [] then seen else NotedAll(Noted(seen, usage, says[0]), Kept(usage, says[0]), says[1..])
  }

  /** The translator has a tool index, always 0, exactly when the client has a call there. */
  predicate InStep(s: State, seen: Seen) {
    s.toolIndex == if 0 in seen.calls then Some(0) else None
  }

  lemma StepAgrees(s: State, seen: Seen, i: Input, e: Say)
    requires Says(i, e) && InStep(s, seen)
    ensures See(seen, Translate(s, i)) == Noted(seen, s.usage, e)
    ensures After(s, i).usage == Kept(s.usage, e)
    ensures InStep(After(s, i), Noted(seen, s.usage, e))
  {
    assert seen.text + "" == seen.text;
    forall d ensures JoinAll(seen.calls, [d]) == Join(seen.calls, d) {
      assert [d][1..] == [];
    }
  }

  /** The client's view of the translated stream is what the events say. */
  lemma {:induction false} StreamSays(s: State, seen: Seen, inputs: seq<Input>, says: seq<Say>)
    requires |inputs| == |says| && forall k :: 0 <= k < |says| ==> Says(inputs[k], says[k])
    requires InStep(s, seen)
    ensures SeeAll(seen, TranslateAll(s, inputs)) == NotedAll(seen, s.usage, says)
    decreases |says|
  {
    if says != [] {
      StepAgrees(s, seen, inputs[0], says[0]);
      var rest := TranslateAll(After(s, inputs[0]), inputs[1..]);
      assert ([Translate(s, inputs[0])] + rest)[1..] == rest;
      StreamSays(After(s, inputs[0]), See(seen, Translate(s, inputs[0])), inputs[1..], says[1..]);
    }
  }

  // ----- the streamed message -----

  function Concat(pieces: seq<string>): string {
    if pieces == [] then "" else pieces[0] + Concat(pieces[1..])
  }

  /** Only the start of a tool says anything. */
  function Opening(b: Block): Say {
    if b.ToolUse? then OpenTool(b.id, b.name) else Quiet
  }

  /** Text goes out as text, the input of anything else as JSON fragments. */
  function Piece(b: Block, p: string): Say {
    if b.TextBlock? then TextPiece(p) else JsonPiece(p)
  }

  function Pieces(b: Block, pieces: seq<string>): seq<Say> {
    if pieces == [] then [] else [Piece(b, pieces[0])] + Pieces(b, pieces[1..])
  }

  /** The blocks in order, each opened, sent piece by piece and stopped. */
  function BlockSays(blocks: seq<Block>, splits: seq<seq<string>>): seq<Say>
    requires |blocks| == |splits|
  {
    if blocks == [] then []
    else [Opening(blocks[0])] + (Pieces(blocks[0], splits[0]) + ([Quiet] + BlockSays(blocks[1..], splits[1..])))
  }

  function MessageSays(m: Message, splits: seq<seq<string>>, first: Value, last: Value): seq<Say>
    requires |m.content| == |splits|
  {
    [Begin(first)] + (BlockSays(m.content, splits) + [Finish(m.stopReason, last), Halt])
  }

  /** Pings and events that add nothing may come anywhere. */
  function WithoutQuiet(says: seq<Say>): seq<Say> {
    if says == [] then [] else (if says[0].Quiet? then [] else [says[0]]) + WithoutQuiet(says[1..])
  }

  lemma {:induction false} QuietIsSilent(seen: Seen, usage: Option<map<string, Value>>, says: seq<Say>)
    ensures NotedAll(seen, usage, says) == NotedAll(seen, usage, WithoutQuiet(says))
    decreases |says|
  {
    if says != [] {
      var rest := WithoutQuiet(says[1..]);
      assert says[0].Quiet? ==> WithoutQuiet(says) == rest;
      assert !says[0].Quiet? ==> WithoutQuiet(says)[0] == says[0] && WithoutQuiet(says)[1..] == rest;
      QuietIsSilent(Noted(seen, usage, says[0]), Kept(usage, says[0]), says[1..]);
    }
  }

  lemma {:induction false} NotedAppend(seen: Seen, usage: Option<map<string, Value>>, a: seq<Say>, b: seq<Say>)
    requires forall e :: e in a ==> !e.Begin?
    ensures NotedAll(seen, usage, a + b) == NotedAll(NotedAll(seen, usage, a), usage, b)
    decreases |a|
  {
    if a == [] {
      assert a + b == b;
    } else {
      assert (a + b)[1..] == a[1..] + b;
      assert a[0] in a;
      NotedAppend(Noted(seen, usage, a[0]), usage, a[1..], b);
    }
  }

  function Texts(blocks: seq<Block>): string {
    if blocks == [] then "" else (if blocks[0].TextBlock? then blocks[0].text else "") + Texts(blocks[1..])
  }

  /** The calls of a message as the buffered form prints them. */
  function Tools(blocks: seq<Block>, render: Value -> string): seq<Call> {
    if blocks == [] then []
    else
      var rest := Tools(blocks[1..], render);
      if blocks[0].ToolUse? then [Call(blocks[0].id, blocks[0].name, render(blocks[0].input))] + rest else rest
  }

  /** The fragments that blocks of other kinds send before the next tool. */
  function Strays(blocks: seq<Block>, splits: seq<seq<string>>): string
    requires |blocks| == |splits|
  {
    if blocks == [] || blocks[0].ToolUse? then ""
    else (if blocks[0].OtherBlock? then Concat(splits[0]) else "") + Strays(blocks[1..], splits[1..])
  }

  /** The calls of a message as they are sent: each with its own fragments, and the strays
      behind them. */
  function Sent(blocks: seq<Block>, splits: seq<seq<string>>): seq<Call>
    requires |blocks| == |splits|
  {
    if blocks == [] then []
    else
      var b, rest := blocks[0], Sent(blocks[1..], splits[1..]);
      if b.ToolUse? then [Call(b.id, b.name, Concat(splits[0]) + Strays(blocks[1..], splits[1..]))] + rest else rest
  }

  function ArgumentsAt0(calls: map<int, Call>): string {
    if 0 in calls then calls[0].arguments else ""
  }

  /** One more tool at index 0: its id and name replace, its arguments add. */
  function Replaced(calls: map<int, Call>, tool: Call): map<int, Call> {
    calls[0 := tool.(arguments := ArgumentsAt0(calls) + tool.arguments)]
  }

  /** All calls folded into index 0, as the quirk has it. */
  function Folded(calls: map<int, Call>, tools: seq<Call>): map<int, Call>
    decreases |tools|
  {
    if tools == [] then calls else Folded(Replaced(calls, tools[0]), tools[1..])
  }

  lemma GrownTwice(calls: map<int, Call>, a: string, b: string)
    ensures Grown(Grown(calls, a), b) == Grown(calls, a + b)
    ensures Grown(calls, "") == calls
  {
    if 0 in calls {
      var args := calls[0].arguments;
      Assoc(args, a, b);
      assert args + "" == args && calls[0 := calls[0]] == calls;
    }
  }

  lemma {:induction false} PiecesNoted(seen: Seen, usage: Option<map<string, Value>>, b: Block, pieces: seq<string>)
    ensures NotedAll(seen, usage, Pieces(b, pieces)) ==
      if b.TextBlock? then seen.(text := seen.text + Concat(pieces))
          else seen.(calls := Grown(seen.calls, Concat(pieces)))
    ensures forall e :: e in Pieces(b, pieces) ==> !e.Begin?
    decreases |pieces|
  {
    if pieces == [] {
      assert seen.text + "" == seen.text;
      GrownTwice(seen.calls, "", "");
    } else {
      var next := Noted(seen, usage, Piece(b, pieces[0]));
      assert Pieces(b, pieces)[1..] == Pieces(b, pieces[1..]);
      PiecesNoted(next, usage, b, pieces[1..]);
      Assoc(seen.text, pieces[0], Concat(pieces[1..]));
      GrownTwice(seen.calls, pieces[0], Concat(pieces[1..]));
    }
  }

  /** What a client has seen after a whole block of which `sent` was sent. */
  function BlockNoted(seen: Seen, b: Block, sent: string): Seen {
    match b
    case TextBlock(_) => seen.(text := seen.text + sent)
    case ToolUse(id, name, _) => seen.(calls := Replaced(seen.calls, Call(id, name, sent)))
    case OtherBlock => seen.(calls := Grown(seen.calls, sent))
  }

  lemma OneBlockNoted(seen: Seen, usage: Option<map<string, Value>>, b: Block, pieces: seq<string>, rest: seq<Say>)
    ensures NotedAll(seen, usage, [Opening(b)] + (Pieces(b, pieces) + ([Quiet] + rest)))
            == NotedAll(BlockNoted(seen, b, Concat(pieces)), usage, rest)
  {
    var start := Noted(seen, usage, Opening(b));
    assert ([Opening(b)] + (Pieces(b, pieces) + ([Quiet] + rest)))[1..] == Pieces(b, pieces) + ([Quiet] + rest);
    PiecesNoted(start, usage, b, pieces);
    NotedAppend(start, usage, Pieces(b, pieces), [Quiet] + rest);
    assert ([Quiet] + rest)[1..] == rest;
    if b.ToolUse? { OpenedThenSent(seen.calls, b.id, b.name, Concat(pieces)); }
  }

  /** A tool is opened with nothing and then grows. */
  lemma OpenedThenSent(calls: map<int, Call>, id: Value, name: Value, sent: string)
    ensures Grown(Join(calls, ToolDelta(Some(0), Some((id, name)), Str(""))), sent)
        == Replaced(calls, Call(id, name, sent))
  {
    var before := ArgumentsAt0(calls);
    assert before + "" == before;
    assert Join(calls, ToolDelta(Some(0), Some((id, name)), Str(""))) == calls[0 := Call(id, name, before)];
  }

  /** Block by block, the client's calls. */
  function CallsAfter(calls: map<int, Call>, blocks: seq<Block>, splits: seq<seq<string>>): map<int, Call>
    requires |blocks| == |splits|
    decreases |blocks|
  {
    if blocks == [] then calls
    else
      var b, sent := blocks[0], Concat(splits[0]);
      var next := match b
        case TextBlock(_) => calls
        case ToolUse(id, name, _) => Replaced(calls, Call(id, name, sent))
        case OtherBlock => Grown(calls, sent);
      CallsAfter(next, blocks[1..], splits[1..])
  }

  /** The pieces of every text block make up its text; other fragments may be anything. */
  ghost predicate Splits(blocks: seq<Block>, splits: seq<seq<string>>) {
    && |blocks| == |splits|
    && forall i :: 0 <= i < |blocks| && blocks[i].TextBlock? ==> Concat(splits[i]) == blocks[i].text
  }

  lemma {:induction false} BlocksNoted(
    seen: Seen, usage: Option<map<string, Value>>, blocks: seq<Block>, splits: seq<seq<string>>, tail: seq<Say>)
    requires Splits(blocks, splits)
    ensures NotedAll(seen, usage, BlockSays(blocks, splits) + tail)
            == NotedAll(seen.(text := seen.text + Texts(blocks), calls := CallsAfter(seen.calls, blocks, splits)),
                usage, tail)
    decreases |blocks|
  {
    if blocks == [] {
      assert seen.text + "" == seen.text && [] + tail == tail;
    } else {
      var b, rest := blocks[0], BlockSays(blocks[1..], splits[1..]);
      Nest([Opening(b)], Pieces(b, splits[0]), [Quiet], rest, tail);
      OneBlockNoted(seen, usage, b, splits[0], rest + tail);
      BlocksNoted(BlockNoted(seen, b, Concat(splits[0])), usage, blocks[1..], splits[1..], tail);
      assert BlockSays(blocks, splits) == [Opening(b)] + (Pieces(b, splits[0]) + ([Quiet] + rest));
      if b.TextBlock? {
        Assoc(seen.text, b.text, Texts(blocks[1..]));
      } else {
        assert "" + Texts(blocks[1..]) == Texts(blocks[1..]);
      }
    }
  }

  /** The client's calls are the calls as sent, folded into index 0. */
  lemma {:induction false} CallsAreSent(calls: map<int, Call>, blocks: seq<Block>, splits: seq<seq<string>>)
    requires |blocks| == |splits|
    ensures CallsAfter(calls, blocks, splits) == Folded(Grown(calls, Strays(blocks, splits)), Sent(blocks, splits))
    decreases |blocks|
  {
    GrownTwice(calls, "", "");
    if blocks != [] {
      var b, sent, strays := blocks[0], Concat(splits[0]), Strays(blocks[1..], splits[1..]);
      match b
      case TextBlock(_) =>
        assert "" + strays == strays;
        CallsAreSent(calls, blocks[1..], splits[1..]);
      case OtherBlock =>
        CallsAreSent(Grown(calls, sent), blocks[1..], splits[1..]);
        GrownTwice(calls, sent, strays);
      case ToolUse(id, name, _) =>
        CallsAreSent(Replaced(calls, Call(id, name, sent)), blocks[1..], splits[1..]);
        ReplacedThenGrown(calls, Call(id, name, sent), strays);
        var rest := Sent(blocks[1..], splits[1..]);
        assert ([Call(id, name, sent + strays)] + rest)[1..] == rest;
    }
  }

  lemma ReplacedThenGrown(calls: map<int, Call>, tool: Call, more: string)
    ensures Grown(Replaced(calls, tool), more) == Replaced(calls, tool.(arguments := tool.arguments + more))
  {
    Assoc(ArgumentsAt0(calls), tool.arguments, more);
  }

  /** What a client sees of a streamed message, whatever the splits. */
  lemma MessageNoted(m: Message, splits: seq<seq<string>>, first: Value, last: Value)
    requires Splits(m.content, splits)
    ensures NotedAll(NOTHING, None, MessageSays(m, splits, first, last))
            == Seen(Texts(m.content), Folded(map[], Sent(m.content, splits)), Some(FinishReason(m.stopReason)),
                    Some(FinalUsage(Some(StartUsage(Some(first))), last)))
  {
    var tail := [Finish(m.stopReason, last), Halt];
    var body := BlockSays(m.content, splits) + tail;
    var kept := Some(StartUsage(Some(first)));
    assert ([Begin(first)] + body)[1..] == body;
    BlocksNoted(NOTHING, kept, m.content, splits, tail);
    CallsAreSent(map[], m.content, splits);
    assert "" + Texts(m.content) == Texts(m.content);
    assert tail[1..] == [Halt] && [Halt][1..] == [];
  }

  // ----- agreement -----

  /** The buffered content block `item` is `b`. */
  ghost predicate Renders(item: Value, b: Block) {
    match b
    case TextBlock(t) => TypeOf(item) == Some("text") && Get(item, "text") == Some(Str(t))
    case ToolUse(id, name, input) =>
      && TypeOf(item) == Some("tool_use") && Get(item, "id") == Some(id) && Get(item, "name") == Some(name)
      && Get(item, "input") == Some(input)
    case OtherBlock => TypeOf(item) != Some("text") && TypeOf(item) != Some("tool_use")
  }

  /** `response` is the buffered form of `m`. */
  ghost predicate IsBuffered(response: Value, m: Message) {
    && |Items(response)| == |m.content|
    && (forall i :: 0 <= i < |m.content| ==> Renders(Items(response)[i], m.content[i]))
    && AsStr(Get(response, "stop_reason")) == m.stopReason && Get(response, "usage") == Some(m.usage)
  }

  lemma {:induction false} BufferedBlocks(items: seq<Value>, blocks: seq<Block>, render: Value -> string)
    requires |items| == |blocks| && forall i :: 0 <= i < |blocks| ==> Renders(items[i], blocks[i])
    ensures BufferedText(items) == Texts(blocks) && BufferedCalls(items, render) == Tools(blocks, render)
    decreases |blocks|
  {
    if blocks != [] {
      assert Renders(items[0], blocks[0]);
      BufferedBlocks(items[1..], blocks[1..], render);
      var rest := Tools(blocks[1..], render);
      assert [] + rest == rest;
    }
  }

  /** A count both forms read alike: anything but a float or a number above `i64`. */
  predicate Plain(v: Option<Value>) {
    v.Some? ==> !v.value.Float? && (v.value.Int? ==> v.value.i <= I64_MAX)
  }

  /** The counts the stream reports at its start and end are those of the whole message. */
  ghost predicate UsageSplit(whole: Value, first: Value, last: Value) {
    && Get(first, "input_tokens") == Get(whole, "input_tokens")
    && Get(last, "output_tokens") == Get(whole, "output_tokens")
    && Get(first, READ) == Get(whole, READ) && Get(first, CREATION) == Get(whole, CREATION)
    && Plain(Get(whole, "input_tokens")) && Plain(Get(whole, "output_tokens")) && Plain(Get(whole, READ))
    && Plain(Get(whole, CREATION))
  }

  function Counts(prompt: Value, output: Value, total: Value): map<string, Value> {
    map["prompt_tokens" := prompt, "completion_tokens" := output, "total_tokens" := total]
  }

  lemma UsageAgrees(whole: Value, first: Value, last: Value, truncate: Value -> Integer)
    requires UsageSplit(whole, first, last)
    ensures FinalUsage(Some(StartUsage(Some(first))), last) == BufferedUsage(Some(whole), truncate)
  {
    var input, output := StreamField(Some(first), "input_tokens"), StreamField(Some(last), "output_tokens");
    var read, creation := StreamField(Some(first), READ), StreamField(Some(first), CREATION);
    var prompt, echo := input + read + creation, read != 0 || creation != 0;
    StreamSide(first, last, prompt, output, echo);
    BufferedSide(whole, first, last, truncate, prompt, output, echo);
    LayoutSame(Wrap64(prompt), Wrap64(output), Wrap64(prompt + output), echo, first, whole);
  }

  lemma StreamSide(first: Value, last: Value, prompt: int, output: int, echo: bool)
    requires prompt == StreamField(Some(first), "input_tokens") + StreamField(Some(first), READ)
        + StreamField(Some(first), CREATION)
    requires output == StreamField(Some(last), "output_tokens")
    requires echo == (StreamField(Some(first), READ) != 0 || StreamField(Some(first), CREATION) != 0)
    ensures FinalUsage(Some(StartUsage(Some(first))), last)
        == Layout(Wrap64(prompt), Wrap64(output), Wrap64(prompt + output), echo, first)
  {
    WrapAdd(prompt, output);
    StreamLayout(first, last, Wrap64(prompt), Wrap64(output), Wrap64(prompt + output), echo);
  }

  lemma BufferedSide(whole: Value, first: Value, last: Value, truncate: Value -> Integer, prompt: int, output: int,
      echo: bool)
    requires UsageSplit(whole, first, last)
    requires prompt == StreamField(Some(first), "input_tokens") + StreamField(Some(first), READ)
        + StreamField(Some(first), CREATION)
    requires output == StreamField(Some(last), "output_tokens")
    requires echo == (StreamField(Some(first), READ) != 0 || StreamField(Some(first), CREATION) != 0)
    ensures BufferedUsage(Some(whole), truncate)
        == Layout(Wrap64(prompt), Wrap64(output), Wrap64(prompt + output), echo, whole)
  {
    FieldsAgree(whole, first, last, truncate);
    BufferedLayout(whole, truncate, Wrap64(prompt), Wrap64(output), Wrap64(prompt + output), echo);
  }

  lemma LayoutSame(p: Integer, c: Integer, t: Integer, echo: bool, a: Value, b: Value)
    requires Get(a, READ) == Get(b, READ) && Get(a, CREATION) == Get(b, CREATION)
    ensures Layout(p, c, t, echo, a) == Layout(p, c, t, echo, b)
  {
    EchoSame(Counts(Int(p), Int(c), Int(t)), a, b);
  }

  /** The counts with the cache buckets echoed or not. */
  function Layout(p: Integer, c: Integer, t: Integer, echo: bool, source: Value): map<string, Value> {
    if echo then EchoCache(Counts(Int(p), Int(c), Int(t)), Some(source)) else Counts(Int(p), Int(c), Int(t))
  }

  lemma BufferedLayout(whole: Value, truncate: Value -> Integer, p: Integer, c: Integer, t: Integer, echo: bool)
    requires var input, output := BufferedField(Some(whole), "input_tokens", truncate),
        BufferedField(Some(whole), "output_tokens", truncate);
      var read, creation := BufferedField(Some(whole), READ, truncate), BufferedField(Some(whole), CREATION, truncate);
      && p == Wrap64(input + read + creation) && c == Wrap64(output) && t == Wrap64(input + read + creation + output)
      && echo == (read != 0 || creation != 0)
    ensures BufferedUsage(Some(whole), truncate) == Layout(p, c, t, echo, whole)
  {
  }

  lemma StreamLayout(first: Value, last: Value, p: Integer, c: Integer, t: Integer, echo: bool)
    requires var input, output := StreamField(Some(first), "input_tokens"), StreamField(Some(last), "output_tokens");
      var read, creation := StreamField(Some(first), READ), StreamField(Some(first), CREATION);
      && p == Wrap64(input + read + creation) && c == output && t == Wrap64(p + output)
      && echo == (read != 0 || creation != 0)
    ensures FinalUsage(Some(StartUsage(Some(first))), last) == Layout(p, c, t, echo, first)
  {
    var base: map<string, Value> := map["prompt_tokens" := Int(p)];
    var k := if echo then EchoCache(base, Some(first)) else base;
    assert StartUsage(Some(first)) == k;
    PromptKept(base, first, echo);
    assert FinalUsage(Some(k), last) == (map["completion_tokens" := Int(c)] + k)["total_tokens" := Int(t)];
    if echo { EchoAfter(Int(p), Int(c), Int(t), Some(first)); } else { CountsAfter(Int(p), Int(c), Int(t)); }
  }

  lemma PromptKept(base: map<string, Value>, first: Value, echo: bool)
    ensures GetIn(Some(Obj(if echo then EchoCache(base, Some(first)) else base)), "prompt_tokens")
        == GetIn(Some(Obj(base)), "prompt_tokens")
  {
  }

  lemma FieldsAgree(whole: Value, first: Value, last: Value, truncate: Value -> Integer)
    requires UsageSplit(whole, first, last)
    ensures StreamField(Some(first), "input_tokens") == BufferedField(Some(whole), "input_tokens", truncate)
    ensures StreamField(Some(last), "output_tokens") == BufferedField(Some(whole), "output_tokens", truncate)
    ensures StreamField(Some(first), READ) == BufferedField(Some(whole), READ, truncate)
    ensures StreamField(Some(first), CREATION) == BufferedField(Some(whole), CREATION, truncate)
  {
  }

  /** The cache buckets may be echoed before or after the other counts are filled in. */
  lemma EchoAfter(p: Value, c: Value, t: Value, source: Option<Value>)
    ensures (map["completion_tokens" := c] + EchoCache(map["prompt_tokens" := p], source))["total_tokens" := t]
        == EchoCache(Counts(p, c, t), source)
  {
  }

  lemma CountsAfter(p: Value, c: Value, t: Value)
    ensures (map["completion_tokens" := c] + map["prompt_tokens" := p])["total_tokens" := t] == Counts(p, c, t)
  {
  }

  lemma EchoSame(m: map<string, Value>, a: Value, b: Value)
    requires Get(a, READ) == Get(b, READ) && Get(a, CREATION) == Get(b, CREATION)
    ensures EchoCache(m, Some(a)) == EchoCache(m, Some(b))
  {
  }

  /** Calls by position, as a client would hold the buffered list. */
  function ByPosition(calls: seq<Call>): map<int, Call> {
    map i: int | 0 <= i < |calls| :: calls[i]
  }

  lemma {:induction false} FoldedKeys(calls: map<int, Call>, tools: seq<Call>)
    ensures Folded(calls, tools).Keys == calls.Keys + if tools == [] then {} else {0}
    decreases |tools|
  {
    if tools != [] {
      FoldedKeys(Replaced(calls, tools[0]), tools[1..]);
    }
  }

  lemma {:induction false} AsManySent(blocks: seq<Block>, splits: seq<seq<string>>, render: Value -> string)
    requires |blocks| == |splits|
    ensures |Sent(blocks, splits)| == |Tools(blocks, render)|
  {
    if blocks != [] { AsManySent(blocks[1..], splits[1..], render); }
  }

  /** Folding calls into index 0 gives a list by position exactly when the list is those calls
      and has at most one. */
  lemma FoldedIsPositional(sent: seq<Call>, calls: seq<Call>)
    requires |sent| == |calls|
    ensures Folded(map[], sent) == ByPosition(calls) <==> |calls| <= 1 && sent == calls
  {
    FoldedKeys(map[], sent);
    if |calls| >= 2 {
      assert 1 in ByPosition(calls);
    } else if |calls| == 1 {
      assert "" + sent[0].arguments == sent[0].arguments;
      assert sent[1..] == [];
      assert Folded(map[], sent) == map[0 := sent[0]];
      assert ByPosition(calls)[0] == calls[0];
      assert ByPosition(calls) == map[0 := calls[0]];
    }
  }

  /** Streamed and buffered translation of one message agree on text, finish reason and
      usage for every split of the text and any pings between.  They agree on the tool calls
      exactly when there is at most one and what was sent for it, with the fragments of other
      blocks behind it, is the serializer's own printing of its input. */
  lemma StreamAgreesWithBuffered(
    m: Message, splits: seq<seq<string>>, first: Value, last: Value, says: seq<Say>, inputs: seq<Input>,
    response: Value, render: Value -> string, truncate: Value -> Integer)
    requires Splits(m.content, splits) && UsageSplit(m.usage, first, last) && IsBuffered(response, m)
    requires WithoutQuiet(says) == WithoutQuiet(MessageSays(m, splits, first, last))
    requires |inputs| == |says| && forall k :: 0 <= k < |says| ==> Says(inputs[k], says[k])
    ensures var seen := SeeAll(NOTHING, TranslateAll(INITIAL, inputs));
      var calls := BufferedCalls(Items(response), render);
      && seen.text == BufferedText(Items(response))
      && seen.finish == Some(FinishReason(AsStr(Get(response, "stop_reason"))))
      && seen.usage == Some(BufferedUsage(Get(response, "usage"), truncate))
      && (seen.calls == ByPosition(calls) <==> |calls| <= 1 && Sent(m.content, splits) == calls)
  {
    var whole := MessageSays(m, splits, first, last);
    MessageNoted(m, splits, first, last);
    QuietIsSilent(NOTHING, None, whole);
    QuietIsSilent(NOTHING, None, says);
    StreamSays(INITIAL, NOTHING, inputs, says);
    BufferedBlocks(Items(response), m.content, render);
    UsageAgrees(m.usage, first, last, truncate);
    AsManySent(m.content, splits, render);
    FoldedIsPositional(Sent(m.content, splits), Tools(m.content, render));
  }

  /** Every tool's own fragments are the serializer's printing of its input. */
  ghost predicate Printed(blocks: seq<Block>, splits: seq<seq<string>>, render: Value -> string) {
    && |blocks| == |splits|
    && forall i :: 0 <= i < |blocks| && blocks[i].ToolUse? ==> Concat(splits[i]) == render(blocks[i].input)
  }

  /** No block of another kind sends a fragment once a tool has been opened. */
  predicate NoStrays(blocks: seq<Block>, splits: seq<seq<string>>, started: bool)
    requires |blocks| == |splits|
    decreases |blocks|
  {
    blocks == []
    || ((blocks[0].OtherBlock? && started ==> Concat(splits[0]) == "")
        && NoStrays(blocks[1..], splits[1..], started || blocks[0].ToolUse?))
  }

  /** Where the tools send what the serializer prints, a fragment of another kind of block
      behind a tool is all that can spoil the calls, and does. */
  lemma StraysSpoil(blocks: seq<Block>, splits: seq<seq<string>>, render: Value -> string)
    requires Printed(blocks, splits, render)
    ensures Sent(blocks, splits) == Tools(blocks, render) <==> NoStrays(blocks, splits, false)
  {
    StraysSpoilFrom(blocks, splits, render);
  }

  lemma {:induction false} StraysSpoilFrom(blocks: seq<Block>, splits: seq<seq<string>>, render: Value -> string)
    requires Printed(blocks, splits, render)
    ensures NoStrays(blocks, splits, false) <==> Sent(blocks, splits) == Tools(blocks, render)
    ensures NoStrays(blocks, splits, true) <==>
        Strays(blocks, splits) == "" && Sent(blocks, splits) == Tools(blocks, render)
  {
    if blocks != [] {
      var b, strays := blocks[0], Strays(blocks[1..], splits[1..]);
      var sent, tools := Sent(blocks[1..], splits[1..]), Tools(blocks[1..], render);
      StraysSpoilFrom(blocks[1..], splits[1..], render);
      if b.ToolUse? {
        var text := Concat(splits[0]);
        assert |text + strays| == |text| + |strays|;
        assert strays == "" ==> text + strays == text;
        FirstCallSame(Call(b.id, b.name, text + strays), Call(b.id, b.name, text), sent, tools);
      } else {
        assert "" + strays == strays;
        assert |Concat(splits[0]) + strays| == |Concat(splits[0])| + |strays|;
      }
    }
  }

  lemma FirstCallSame(a: Call, b: Call, xs: seq<Call>, ys: seq<Call>)
    ensures [a] + xs == [b] + ys <==> a == b && xs == ys
  {
    if [a] + xs == [b] + ys { Cut([a], [b], xs, ys); }
  }

  // ----- every message can be sent -----

  /** An Anthropic event that says this. */
  function EventOf(e: Say): Input {
    match e
    case Quiet => Ignored
    case Halt => StopEvent
    case Begin(u) => Payload(Obj(map["type" := Str("message_start"), "message" := Obj(map["usage" := u])]))
    case Finish(stop, u) =>
      Payload(Obj(map["type" := Str("message_delta"), "usage" := u,
          "delta" := Obj(map["stop_reason" := OptStr(stop)])]))
    case OpenTool(id, name) =>
      Payload(Obj(map["type" := Str("content_block_start"),
                      "content_block" := Obj(map["type" := Str("tool_use"), "id" := id, "name" := name])]))
    case TextPiece(t) =>
      Payload(Obj(map["type" := Str("content_block_delta"), "delta" := Obj(map["text" := Str(t)])]))
    case JsonPiece(j) =>
      Payload(Obj(map["type" := Str("content_block_delta"), "delta" := Obj(map["partial_json" := Str(j)])]))
  }

  lemma EventSays(e: Say)
    ensures Says(EventOf(e), e)
  {
    if EventOf(e).Payload? {
      var v := EventOf(e).value;
      match e
      case Begin(u) => assert Get(v, "message") == Some(Obj(map["usage" := u]));
      case Finish(stop, u) =>
        assert Get(v, "delta") == Some(Obj(map["stop_reason" := OptStr(stop)])) && Get(v, "usage") == Some(u);
      case OpenTool(id, name) =>
        assert Get(v, "content_block") == Some(Obj(map["type" := Str("tool_use"), "id" := id, "name" := name]));
      case TextPiece(t) => assert Get(v, "delta") == Some(Obj(map["text" := Str(t)]));
      case JsonPiece(j) => assert Get(v, "delta") == Some(Obj(map["partial_json" := Str(j)]));
    }
  }

  function BlockValue(b: Block): Value {
    match b
    case TextBlock(t) => Obj(map["type" := Str("text"), "text" := Str(t)])
    case ToolUse(id, name, input) => Obj(map["type" := Str("tool_use"), "id" := id, "name" := name, "input" := input])
    case OtherBlock => Obj(map["type" := Str("server_tool_use")])
  }

  lemma BlockRenders(b: Block)
    ensures Renders(BlockValue(b), b)
  {
    var v := BlockValue(b);
    match b
    case TextBlock(t) => assert TypeOf(v) == Some("text") && Get(v, "text") == Some(Str(t));
    case ToolUse(id, name, input) =>
      assert TypeOf(v) == Some("tool_use") && Get(v, "id") == Some(id);
      assert Get(v, "name") == Some(name) && Get(v, "input") == Some(input);
    case OtherBlock => assert TypeOf(v) == Some("server_tool_use");
  }

  function ResponseOf(m: Message): Value {
    Obj(map["content" := Arr(seq(|m.content|, i requires 0 <= i < |m.content| => BlockValue(m.content[i]))),
            "stop_reason" := OptStr(m.stopReason), "usage" := m.usage])
  }

  lemma ResponseIsBuffered(m: Message)
    ensures IsBuffered(ResponseOf(m), m)
  {
    var r, items := ResponseOf(m), seq(|m.content|, i requires 0 <= i < |m.content| => BlockValue(m.content[i]));
    assert Get(r, "content") == Some(Arr(items)) && Get(r, "usage") == Some(m.usage);
    assert Get(r, "stop_reason") == Some(OptStr(m.stopReason));
    forall i | 0 <= i < |m.content| ensures Renders(Items(r)[i], m.content[i]) { BlockRenders(m.content[i]); }
  }

  /** The stream of a message under these splits. */
  function StreamOf(m: Message, splits: seq<seq<string>>): seq<Input>
    requires |m.content| == |splits|
  {
    var says := MessageSays(m, splits, m.usage, m.usage);
    seq(|says|, k requires 0 <= k < |says| => EventOf(says[k]))
  }

  /** Every message with plain counts has a stream for every split, and a buffered form, so
      the agreement is never empty. */
  lemma EveryMessageAgrees(m: Message, splits: seq<seq<string>>, render: Value -> string, truncate: Value -> Integer)
    requires UsageSplit(m.usage, m.usage, m.usage) && Splits(m.content, splits)
    ensures var seen := SeeAll(NOTHING, TranslateAll(INITIAL, StreamOf(m, splits)));
      var calls := BufferedCalls(Items(ResponseOf(m)), render);
      && seen.text == BufferedText(Items(ResponseOf(m))) && calls == Tools(m.content, render)
      && (seen.calls == ByPosition(calls) <==> |calls| <= 1 && Sent(m.content, splits) == calls)
  {
    var says, inputs := MessageSays(m, splits, m.usage, m.usage), StreamOf(m, splits);
    ResponseIsBuffered(m);
    forall k | 0 <= k < |says| ensures Says(inputs[k], says[k]) { EventSays(says[k]); }
    BufferedBlocks(Items(ResponseOf(m)), m.content, render);
    StreamAgreesWithBuffered(m, splits, m.usage, m.usage, says, inputs, ResponseOf(m), render, truncate);
  }

  // ----- inputs on which they disagree -----

  const USAGE := Obj(map["input_tokens" := Int(1), "output_tokens" := Int(2)])

  /** The client of the stream does not end up with the buffered calls. */
  ghost predicate Disagrees(content: seq<Block>, splits: seq<seq<string>>, render: Value -> string)
    requires |content| == |splits|
  {
    var m := Message(content, Some("tool_use"), USAGE);
    SeeAll(NOTHING, TranslateAll(INITIAL, StreamOf(m, splits))).calls
    != ByPosition(BufferedCalls(Items(ResponseOf(m)), render))
  }

  lemma DisagreesExactly(content: seq<Block>, splits: seq<seq<string>>, render: Value -> string)
    requires Splits(content, splits)
    ensures Disagrees(content, splits, render) <==>
        |Tools(content, render)| > 1 || Sent(content, splits) != Tools(content, render)
  {
    EveryMessageAgrees(Message(content, Some("tool_use"), USAGE), splits, render, _ => 0);
  }

  function Asked(name: string, input: Value): Block {
    ToolUse(Str(name), Str(name), input)
  }

  /** Two tools, sent exactly as printed. */
  lemma TwoToolsDisagree(render: Value -> string)
    ensures var x := Obj(map[]);
      Disagrees([Asked("f", x), Asked("g", x)], [[render(x)], [render(x)]], render)
  {
    var x := Obj(map[]);
    var blocks := [Asked("f", x), Asked("g", x)];
    assert blocks[1..] == [blocks[1]] && [blocks[1]][1..] == [];
    assert Tools([blocks[1]], render) == [Call(Str("g"), Str("g"), render(x))];
    assert |Tools(blocks, render)| == 2;
    DisagreesExactly(blocks, [[render(x)], [render(x)]], render);
  }

  lemma OtherBlockAlone(more: seq<string>, render: Value -> string)
    ensures Strays([OtherBlock], [more]) == Concat(more)
    ensures Sent([OtherBlock], [more]) == [] && Tools([OtherBlock], render) == []
  {
    assert [OtherBlock][1..] == [] && [more][1..] == [];
    assert Strays([OtherBlock][1..], [more][1..]) == "";
    assert Concat(more) + "" == Concat(more);
  }

  /** One tool, and perhaps a block of another kind behind it. */
  lemma OneToolDisagrees(input: Value, fragments: seq<string>, more: seq<string>, render: Value -> string)
    ensures Disagrees([Asked("f", input), OtherBlock], [fragments, more], render) <==>
        Concat(fragments) + Concat(more) != render(input)
  {
    var blocks, splits := [Asked("f", input), OtherBlock], [fragments, more];
    assert blocks[1..] == [OtherBlock] && splits[1..] == [more];
    OtherBlockAlone(more, render);
    assert Sent(blocks, splits) == [Call(Str("f"), Str("f"), Concat(fragments) + Concat(more))];
    assert Tools(blocks, render) == [Call(Str("f"), Str("f"), render(input))];
    DisagreesExactly(blocks, splits, render);
  }

  function A1(): Value {
    Object(map["a" := Int(1)], ["a"])
  }

  /** One tool whose input is streamed with a space the serializer does not print. */
  lemma SpacedArgumentsDisagree(render: Value -> string)
    requires render(A1()) == "{\"a\":1}"
    ensures Disagrees([Asked("f", A1()), OtherBlock], [["{\"a\": ", "1}"], []], render)
  {
    var fragments := ["{\"a\": ", "1}"];
    assert fragments[1..] == ["1}"] && fragments[1..][1..] == [];
    assert |Concat(fragments)| == 8;
    OneToolDisagrees(A1(), fragments, [], render);
  }

  /** One tool with an empty input, for which nothing is streamed. */
  lemma EmptyArgumentsDisagree(render: Value -> string)
    requires render(Obj(map[])) == "{}"
    ensures Disagrees([Asked("f", Obj(map[])), OtherBlock], [[], []], render)
  {
    OneToolDisagrees(Obj(map[]), [], [], render);
  }

  /** One tool sent exactly as printed, and a block of another kind with a fragment behind it. */
  lemma StrayFragmentDisagrees(input: Value, render: Value -> string)
    ensures Disagrees([Asked("f", input), OtherBlock], [[render(input)], ["{}"]], render)
  {
    var own, stray := [render(input)], ["{}"];
    assert own[1..] == [] && stray[1..] == [];
    assert |Concat(own) + Concat(stray)| == |render(input)| + 2;
    OneToolDisagrees(input, own, stray, render);
  }
}
