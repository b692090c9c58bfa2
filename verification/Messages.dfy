/**
 Conversations between the OpenAI Chat Completions and the Anthropic Messages format
 (`src/middleware/request_transform.rs`), in both directions, over arbitrary JSON.
 `serde_json::from_str` and `serde_json::to_string` are the parameters `parse` and `render`.
 */
module Messages {
  import opened Basics
  import opened Documents
  import opened Sequences

  const PDF_MIME := "application/pdf"
  const TXT_MIME := "text/plain"

  datatype TransformError = InvalidRequest(message: string)

  type Parse = string -> Result<Value, string>
  type Render = Value -> string

  // ----- shared helpers -----

  predicate IsSystemRole(role: string) {
    role == "system" || role == "developer"
  }

  /** JavaScript truthiness; a float is zero when it prints as one of the two zeros. */
  predicate Truthy(v: Value) {
    match v
    case Null => false
    case Bool(b) => b
    case Int(i) => i != 0
    case Float(text) => text != "0.0" && text != "-0.0"
    case Str(s) => s != ""
    case _ => true
  }

  predicate TruthyIn(v: Option<Value>) {
    v.Some? && Truthy(v.value)
  }

  function StrOrEmpty(v: Option<Value>): string {
    if AsStr(v).Some? then AsStr(v).value else ""
  }

  function Put(fields: map<string, Value>, key: string, v: Option<Value>): map<string, Value> {
    if v.Some? then fields[key := v.value] else fields
  }

  function TypeOf(v: Value): Option<string> {
    AsStr(Get(v, "type"))
  }

  /** All results of `f`, in order. */
  function Each<T, U>(xs: seq<T>, f: T -> seq<U>): seq<U> {
    if xs == [] then [] else f(xs[0]) + Each(xs[1..], f)
  }

  /** `str::split` on a character. */
  function Split(s: string, c: char): (r: seq<string>)
    ensures r != [] && forall i :: 0 <= i < |r| ==> c !in r[i]
  {
    if s == "" then [""]
    else
      var rest := Split(s[1..], c);
      if s[0] == c then [""] + rest else [[s[0]] + rest[0]] + rest[1..]
  }

  // ----- OpenAI to Anthropic -----

  function Ephemeral(item: Value): Option<Value> {
    if Get(item, "cache_control").Some? then Some(Obj(map["type" := Str("ephemeral")])) else None
  }

  /** A text block: the item's text, if any, and a fresh cache mark. */
  function TextBlock(item: Value): Value {
    Obj(Put(Put(map["type" := Str("text")], "text", Get(item, "text")), "cache_control", Ephemeral(item)))
  }

  function UrlSource(url: Value): Value {
    Obj(map["type" := Str("url"), "url" := url])
  }

  function DataSource(kind: string, mime: Value, data: Value): Value {
    Obj(map["type" := Str(kind), "media_type" := mime, "data" := data])
  }

  function Sourced(kind: string, source: Value): map<string, Value> {
    map["type" := Str(kind), "source" := source]
  }

  /** A `data:` URL with exactly one `;`, its payload behind the next `,`. */
  function DataBlocks(url: string, item: Value): (r: seq<Value>)
    ensures |r| <= 1
  {
    var parts := Split(url, ';');
    if |parts| != 2 then []
    else
      var payload, media := Split(parts[1], ','), Split(parts[0], ':');
      var data := if |payload| > 1 then payload[1] else "";
      if |media| != 2 || data == "" then []
      else
        [Obj(Put(Sourced(if media[1] == PDF_MIME then "document"
            else "image", DataSource("base64", Str(media[1]), Str(data))),
                 "cache_control", Ephemeral(item)))]
  }

  /** `append_image_content_item`. */
  function ImageBlocks(item: Value): (r: seq<Value>)
    ensures |r| <= 1
  {
    var url := StrOrEmpty(GetIn(Get(item, "image_url"), "url"));
    if url == "" then []
    else if !("data:" <= url) then [Obj(Sourced("image", UrlSource(Str(url))))]
    else DataBlocks(url, item)
  }

  /** `append_file_content_item`. */
  function FileBlocks(item: Value): (r: seq<Value>)
    ensures |r| <= 1
  {
    var file := Get(item, "file");
    var url, data := GetIn(file, "file_url"), GetIn(file, "file_data");
    if TruthyIn(url) then [Obj(Sourced("document", UrlSource(url.value)))]
    else if TruthyIn(data) then
      var mime := if AsStr(GetIn(file, "mime_type")).Some? then AsStr(GetIn(file, "mime_type")).value else PDF_MIME;
      [Obj(Sourced("document", DataSource(if mime == TXT_MIME then "text" else "base64", Str(mime), data.value)))]
    else []
  }

  /** What one content item of a user message becomes. */
  function ItemBlocks(item: Value): (r: seq<Value>)
    ensures |r| <= 1
  {
    match TypeOf(item)
    case Some("text") => [TextBlock(item)]
    case Some("image_url") => ImageBlocks(item)
    case Some("file") => FileBlocks(item)
    case _ => []
  }

  function NotToolUse(item: Value): seq<Value> {
    if TypeOf(item) == Some("tool_use") then [] else [item]
  }

  /** The text part of an assistant message: "content_blocks" goes before "content". */
  function Spoken(msg: Value): seq<Value> {
    match if Get(msg, "content_blocks").Some? then Get(msg, "content_blocks") else Get(msg, "content")
    case Some(Str(s)) => if s == "" then [] else [Obj(map["type" := Str("text"), "text" := Str(s)])]
    case Some(Arr(items)) => Each(items, NotToolUse)
    case _ => []
  }

  function CallInput(call: Value, parse: Parse): Result<Value, TransformError> {
    var arguments := StrOrEmpty(GetIn(Get(call, "function"), "arguments"));
    if arguments == "" then Ok(Obj(map[]))
    else match parse(arguments)
      case Ok(v) => Ok(v)
      case Err(e) => Err(InvalidRequest("invalid tool call arguments: " + e))
  }

  function ToolUse(call: Value, input: Value): Value {
    Obj(Put(map["type" := Str("tool_use"), "name" := OrNull(GetIn(Get(call, "function"), "name")),
                "id" := OrNull(Get(call, "id")), "input" := input],
            "cache_control", Get(call, "cache_control")))
  }

  /** What has been pushed, and then the rest unless it fails. */
  function Before(out: seq<Value>, rest: Result<seq<Value>, TransformError>): Result<seq<Value>, TransformError> {
    match rest
    case Err(e) => Err(e)
    case Ok(vs) => Ok(out + vs)
  }

  /** The calls of an assistant message; the first bad arguments reject the request. */
  function ToolUses(calls: seq<Value>, parse: Parse): Result<seq<Value>, TransformError> {
    if calls == [] then Ok([])
    else
      match CallInput(calls[0], parse)
      case Err(e) => Err(e)
      case Ok(input) =>
        Before([ToolUse(calls[0], input)], ToolUses(calls[1..], parse))
  }

  function CallsIn(msg: Value): seq<Value> {
    if AsArray(Get(msg, "tool_calls")).Some? then AsArray(Get(msg, "tool_calls")).value else []
  }

  function Said(role: Value, content: Value): Value {
    Obj(map["role" := role, "content" := content])
  }

  function AssistantMessage(msg: Value, parse: Parse): Result<Value, TransformError> {
    match ToolUses(CallsIn(msg), parse)
    case Err(e) => Err(e)
    case Ok(uses) => Ok(Said(OrNull(Get(msg, "role")), Arr(Spoken(msg) + uses)))
  }

  function ToolResult(msg: Value): Value {
    var id := if OrNull(Get(msg, "tool_call_id")) == Null then Str("") else OrNull(Get(msg, "tool_call_id"));
    Obj(Put(map["type" := Str("tool_result"), "tool_use_id" := id], "content", Get(msg, "content")))
  }

  function ToolMessage(msg: Value): Value {
    Said(Str("user"), Arr([ToolResult(msg)]))
  }

  function UserMessage(msg: Value): Value {
    var role, content := Str(StrOrEmpty(Get(msg, "role"))), Get(msg, "content");
    if AsArray(content).Some? && AsArray(content).value != []
        then Said(role, Arr(Each(AsArray(content).value, ItemBlocks)))
    else Obj(Put(map["role" := role], "content", content))
  }

  /** One message, none for a system message. */
  function ToAnthropic(msg: Value, parse: Parse): Result<seq<Value>, TransformError> {
    var role := StrOrEmpty(Get(msg, "role"));
    if IsSystemRole(role) then Ok([])
    else if role == "assistant" then
      match AssistantMessage(msg, parse)
      case Err(e) => Err(e)
      case Ok(m) => Ok([m])
    else if role == "tool" then Ok([ToolMessage(msg)])
    else Ok([UserMessage(msg)])
  }

  function AllToAnthropic(msgs: seq<Value>, parse: Parse): Result<seq<Value>, TransformError> {
    if msgs == [] then Ok([])
    else
      match ToAnthropic(msgs[0], parse)
      case Err(e) => Err(e)
      case Ok(m) =>
        Before(m, AllToAnthropic(msgs[1..], parse))
  }

  function MessagesIn(params: Value): seq<Value> {
    if AsArray(Get(params, "messages")).Some? then AsArray(Get(params, "messages")).value else []
  }

  function SystemBlock(block: Value): seq<Value> {
    [TextBlock(block)]
  }

  /** The system entries of one message. */
  function SystemEntries(msg: Value): seq<Value> {
    var content := Get(msg, "content");
    var items := AsArray(content);
    if !IsSystemRole(StrOrEmpty(Get(msg, "role"))) then []
    else if items.Some? && items.value != [] && TruthyIn(Get(items.value[0], "text"))
        then Each(items.value, SystemBlock)
    else if content.Some? && content.value.Str? then [Obj(map["type" := Str("text"), "text" := content.value])]
    else []
  }

  // ----- Anthropic to OpenAI -----

  function TextPart(s: string): Value {
    Obj(map["type" := Str("text"), "text" := Str(s)])
  }

  function ImagePart(url: string): Value {
    Obj(map["type" := Str("image_url"), "image_url" := Obj(map["url" := Str(url)])])
  }

  function FilePart(key: string, v: Value, mime: Value): Value {
    Obj(map["type" := Str("file"), "file" := Obj(map[key := v, "mime_type" := mime])])
  }

  function ImageParts(source: Value): (r: seq<Value>)
    ensures |r| <= 1
  {
    match TypeOf(source)
    case Some("base64") =>
      [ImagePart("data:" + StrOrEmpty(Get(source, "media_type")) + ";base64," + StrOrEmpty(Get(source, "data")))]
    case Some("url") => [ImagePart(StrOrEmpty(Get(source, "url")))]
    case _ => []
  }

  function DocumentParts(source: Value): (r: seq<Value>)
    ensures |r| <= 1
  {
    var mime := OrNull(Get(source, "media_type"));
    match TypeOf(source)
    case Some("url") => [FilePart("file_url", OrNull(Get(source, "url")), mime)]
    case Some("base64") => [FilePart("file_data", OrNull(Get(source, "data")), mime)]
    case Some("text") => [FilePart("file_data", OrNull(Get(source, "data")), mime)]
    case _ => []
  }

  /** The content part a block becomes. */
  function PartsOf(block: Value): (r: seq<Value>)
    ensures |r| <= 1
  {
    var source := Get(block, "source");
    match TypeOf(block)
    case Some("text") => if Get(block, "text").Some? then [TextPart(StrOrEmpty(Get(block, "text")))] else []
    case Some("image") => if TruthyIn(source) then ImageParts(source.value) else []
    case Some("document") => if TruthyIn(source) then DocumentParts(source.value) else []
    case _ => []
  }

  function FunctionCall(id: string, name: string, arguments: string): Value {
    Obj(map["id" := Str(id), "type" := Str("function"),
            "function" := Obj(map["name" := Str(name), "arguments" := Str(arguments)])])
  }

  /** The tool call a block becomes. */
  function CallsOf(block: Value, render: Render): (r: seq<Value>)
    ensures |r| <= 1
  {
    if TypeOf(block) == Some("tool_use") && Get(block, "id").Some? && Get(block, "name").Some? then
      var input := if Get(block, "input").Some? then Get(block, "input").value else Obj(map[]);
      [FunctionCall(StrOrEmpty(Get(block, "id")), StrOrEmpty(Get(block, "name")), render(input))]
    else []
  }

  /** The tool message a block becomes. */
  function ResultsOf(block: Value, render: Render): (r: seq<Value>)
    ensures |r| <= 1
  {
    if TypeOf(block) == Some("tool_result") && Get(block, "tool_use_id").Some? then
      var content := match Get(block, "content")
        case Some(Str(s)) => Some(Str(s))
        case Some(v) => Some(Str(render(v)))
        case None => None;
      [Obj(Put(map["role" := Str("tool"), "tool_call_id" := Str(StrOrEmpty(Get(block, "tool_use_id")))], "content",
          content))]
    else []
  }

  function Caller(render: Render): Value -> seq<Value> {
    block => CallsOf(block, render)
  }

  function Resulter(render: Render): Value -> seq<Value> {
    block => ResultsOf(block, render)
  }

  /** A lone text part stands as a plain string. */
  function Folded(parts: seq<Value>): Value {
    if |parts| == 1 && TypeOf(parts[0]) == Some("text") then
      if Get(parts[0], "text").Some? then Get(parts[0], "text").value else Str("")
    else Arr(parts)
  }

  /** A message with its parts and calls; calls always come with some content. */
  function Turned(role: Value, parts: seq<Value>, calls: seq<Value>): Value {
    var content := if parts == [] then None else Some(Folded(parts));
    if calls == [] then Obj(Put(map["role" := role], "content", content))
    else Obj(map["role" := role, "tool_calls" := Arr(calls), "content" := if TruthyIn(content) then content.value
        else Str("")])
  }

  function FromBlocks(role: Value, blocks: seq<Value>, render: Render): seq<Value> {
    var parts, calls := Each(blocks, PartsOf), Each(blocks, Caller(render));
    (if parts == [] && calls == [] then [] else [Turned(role, parts, calls)]) + Each(blocks, Resulter(render))
  }

  /** One Anthropic message as OpenAI messages. */
  function ToOpenAi(msg: Value, render: Render): seq<Value> {
    var role := OrNull(Get(msg, "role"));
    match Get(msg, "content")
    case Some(Str(s)) => [Said(role, Str(s))]
    case Some(Arr(blocks)) => FromBlocks(role, blocks, render)
    case _ => []
  }

  function Translator(render: Render): Value -> seq<Value> {
    msg => ToOpenAi(msg, render)
  }

  function SystemText(block: Value): seq<string> {
    if TypeOf(block) == Some("text") && AsStr(Get(block, "text")).Some? then [AsStr(Get(block, "text")).value] else []
  }

  function SystemPart(params: Value): (r: seq<Value>)
    ensures |r| <= 1
  {
    var text := match Get(params, "system")
      case Some(Str(s)) => s
      case Some(Arr(blocks)) => Join(Each(blocks, SystemText), "\n")
      case _ => "";
    if text == "" then [] else [Said(Str("system"), Str(text))]
  }

  // ----- the loops -----

  /** The loops push what each element gives and go on. */
  lemma EachStep<T, U>(out: seq<U>, xs: seq<T>, i: nat, f: T -> seq<U>)
    requires i < |xs|
    ensures out + Each(xs[i..], f) == (out + f(xs[i])) + Each(xs[i + 1..], f)
  {
    assert xs[i..][0] == xs[i] && xs[i..][1..] == xs[i + 1..];
  }

  /** `transform_assistant_message`. */
  method TransformAssistantMessage(msg: Value, parse: Parse) returns (r: Result<Value, TransformError>)
    ensures r == AssistantMessage(msg, parse)
  {
    var content: seq<Value> := [];
    var input := if Get(msg, "content_blocks").Some? then Get(msg, "content_blocks") else Get(msg, "content");
    match input {
      case Some(Str(s)) => if s != "" { content := [Obj(map["type" := Str("text"), "text" := Str(s)])]; }
      case Some(Arr(items)) => content := WithoutToolUse(items);
      case _ =>
    }
    assert content == Spoken(msg);
    var uses := AppendToolUses(CallsIn(msg), content, parse);
    match uses {
      case Err(e) => return Err(e);
      case Ok(blocks) => return Ok(Said(OrNull(Get(msg, "role")), Arr(blocks)));
    }
  }

  method WithoutToolUse(items: seq<Value>) returns (out: seq<Value>)
    ensures out == Each(items, NotToolUse)
  {
    out := [];
    for i := 0 to |items|
      invariant out + Each(items[i..], NotToolUse) == Each(items, NotToolUse)
    {
      EachStep(out, items, i, NotToolUse);
      if TypeOf(items[i]) != Some("tool_use") { out := out + [items[i]]; }
    }
  }

  lemma BeforeStep(out: seq<Value>, more: seq<Value>, rest: Result<seq<Value>, TransformError>)
    ensures Before(out, Before(more, rest)) == Before(out + more, rest)
    ensures Before([], rest) == rest
  {
    if rest.Ok? {
      assert out + (more + rest.value) == (out + more) + rest.value;
      assert [] + rest.value == rest.value;
    }
  }

  method AppendToolUses(calls: seq<Value>, start: seq<Value>, parse: Parse)
      returns (r: Result<seq<Value>, TransformError>)
    ensures r == Before(start, ToolUses(calls, parse))
  {
    var out := start;
    for i := 0 to |calls|
      invariant Before(out, ToolUses(calls[i..], parse)) == Before(start, ToolUses(calls, parse))
    {
      assert calls[i..][0] == calls[i] && calls[i..][1..] == calls[i + 1..];
      var input := CallInput(calls[i], parse);
      if input.Err? { return Err(input.error); }
      var use := ToolUse(calls[i], input.value);
      BeforeStep(out, [use], ToolUses(calls[i + 1..], parse));
      out := out + [use];
    }
    assert calls[|calls|..] == [] && out + [] == out;
    return Ok(out);
  }

  method UserContent(items: seq<Value>) returns (out: seq<Value>)
    ensures out == Each(items, ItemBlocks)
  {
    out := [];
    for i := 0 to |items|
      invariant out + Each(items[i..], ItemBlocks) == Each(items, ItemBlocks)
    {
      EachStep(out, items, i, ItemBlocks);
      out := out + ItemBlocks(items[i]);
    }
  }

  /** One message of the loop in `anthropic_messages`. */
  method TransformMessage(msg: Value, parse: Parse) returns (r: Result<seq<Value>, TransformError>)
    ensures r == ToAnthropic(msg, parse)
  {
    var role := StrOrEmpty(Get(msg, "role"));
    if IsSystemRole(role) { return Ok([]); }
    if role == "assistant" {
      var m := TransformAssistantMessage(msg, parse);
      match m {
        case Err(e) => return Err(e);
        case Ok(v) => return Ok([v]);
      }
    }
    if role == "tool" { return Ok([ToolMessage(msg)]); }
    var content := Get(msg, "content");
    if AsArray(content).Some? && AsArray(content).value != [] {
      var blocks := UserContent(AsArray(content).value);
      return Ok([Said(Str(role), Arr(blocks))]);
    }
    return Ok([Obj(Put(map["role" := Str(role)], "content", content))]);
  }

  /** `anthropic_messages`. */
  method AnthropicMessages(params: Value, parse: Parse) returns (r: Result<Value, TransformError>)
    ensures r == match AllToAnthropic(MessagesIn(params), parse) case Err(e) => Err(e) case Ok(msgs) => Ok(Arr(msgs))
  {
    var msgs, out := MessagesIn(params), [];
    BeforeStep([], [], AllToAnthropic(msgs, parse));
    for i := 0 to |msgs|
      invariant Before(out, AllToAnthropic(msgs[i..], parse)) == AllToAnthropic(msgs, parse)
    {
      assert msgs[i..][0] == msgs[i] && msgs[i..][1..] == msgs[i + 1..];
      var m := TransformMessage(msgs[i], parse);
      if m.Err? { return Err(m.error); }
      BeforeStep(out, m.value, AllToAnthropic(msgs[i + 1..], parse));
      out := out + m.value;
    }
    assert msgs[|msgs|..] == [] && out + [] == out;
    return Ok(Arr(out));
  }

  /** `anthropic_system`. */
  method AnthropicSystem(params: Value) returns (r: Value)
    ensures r == Arr(Each(MessagesIn(params), SystemEntries))
  {
    var msgs, out := MessagesIn(params), [];
    for i := 0 to |msgs|
      invariant out + Each(msgs[i..], SystemEntries) == Each(msgs, SystemEntries)
    {
      EachStep(out, msgs, i, SystemEntries);
      out := out + SystemEntries(msgs[i]);
    }
    return Arr(out);
  }

  /** The three collections of one walk over a message's blocks. */
  method WalkBlocks(blocks: seq<Value>, render: Render)
      returns (parts: seq<Value>, calls: seq<Value>, results: seq<Value>)
    ensures parts == Each(blocks, PartsOf)
    ensures calls == Each(blocks, Caller(render))
    ensures results == Each(blocks, Resulter(render))
  {
    parts, calls, results := [], [], [];
    for i := 0 to |blocks|
      invariant parts + Each(blocks[i..], PartsOf) == Each(blocks, PartsOf)
      invariant calls + Each(blocks[i..], Caller(render)) == Each(blocks, Caller(render))
      invariant results + Each(blocks[i..], Resulter(render)) == Each(blocks, Resulter(render))
    {
      EachStep(parts, blocks, i, PartsOf);
      EachStep(calls, blocks, i, Caller(render));
      EachStep(results, blocks, i, Resulter(render));
      parts := parts + PartsOf(blocks[i]);
      calls := calls + CallsOf(blocks[i], render);
      results := results + ResultsOf(blocks[i], render);
    }
  }

  /** What a reader finds in a translated message: its calls, all of them; content exactly
      when there is anything at all; a lone text as a plain string, several parts as a list. */
  lemma TurnedReads(role: Value, parts: seq<Value>, calls: seq<Value>)
    ensures var r := Turned(role, parts, calls);
      && Get(r, "role") == Some(role) && CallsIn(r) == calls
      && (Get(r, "content") == None <==> parts == [] && calls == [])
      && (parts == [] && calls != [] ==> Get(r, "content") == Some(Str("")))
      && (forall s :: parts == [TextPart(s)] ==> Get(r, "content") == Some(Str(s)))
      && (|parts| > 1 ==> Get(r, "content") == Some(Arr(parts)))
  {
    forall s | parts == [TextPart(s)] ensures Folded(parts) == Str(s) {
      var t := TextPart(s);
      assert TypeOf(t) == Some("text") && Get(t, "text") == Some(Str(s));
    }
  }

  /** The fields of the translated message, set one by one. */
  method Compose(role: Value, parts: seq<Value>, calls: seq<Value>) returns (r: Value)
    ensures r == Turned(role, parts, calls)
    ensures Get(r, "role") == Some(role) && CallsIn(r) == calls
    ensures Get(r, "content") == None <==> parts == [] && calls == []
    ensures forall s :: parts == [TextPart(s)] ==> Get(r, "content") == Some(Str(s))
  {
    TurnedReads(role, parts, calls);
    var message: map<string, Value> := map["role" := role];
    if parts != [] { message := message["content" := Folded(parts)]; }
    if calls != [] {
      message := message["tool_calls" := Arr(calls)];
      if !("content" in message && Truthy(message["content"])) { message := message["content" := Str("")]; }
    }
    r := Obj(message);
  }

  /** One message of the loop in `oai_transform_messages`. */
  method TransformBack(msg: Value, render: Render) returns (out: seq<Value>)
    ensures out == ToOpenAi(msg, render)
  {
    var role := OrNull(Get(msg, "role"));
    out := [];
    match Get(msg, "content") {
      case Some(Str(s)) => out := [Said(role, Str(s))];
      case Some(Arr(blocks)) =>
        var parts, calls, results := WalkBlocks(blocks, render);
        if parts != [] || calls != [] {
          var message := Compose(role, parts, calls);
          out := [message];
        }
        out := out + results;
      case _ =>
    }
  }

  /** `oai_transform_messages`. */
  method OaiTransformMessages(params: Value, render: Render) returns (r: Value)
    ensures r == Arr(SystemPart(params) + Each(MessagesIn(params), Translator(render)))
  {
    var msgs, out := MessagesIn(params), SystemPart(params);
    for i := 0 to |msgs|
      invariant out + Each(msgs[i..], Translator(render)) == SystemPart(params) + Each(msgs, Translator(render))
    {
      EachStep(out, msgs, i, Translator(render));
      var m := TransformBack(msgs[i], render);
      out := out + m;
    }
    return Arr(out);
  }
}
