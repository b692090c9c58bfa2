/**
 The OpenAI to Anthropic event translator (`openai_to_anthropic_messages_stream` in
 `src/middleware/stream_transform.rs`).  A chunk is the view the code takes of the parsed
 JSON: a field is `None` when absent or of another type.
 */
module MessagesStream {
  import opened Basics
  import opened Ordering
  import opened Sequences

  // ----- input: OpenAI chat.completion.chunk -----

  datatype ToolCall = ToolCall(index: Option<int>, id: Option<string>, name: Option<string>, arguments: Option<string>)
  datatype Delta = Delta(content: Option<string>, toolCalls: Option<seq<ToolCall>>)
  datatype Choice = Choice(delta: Option<Delta>, finishReason: Option<string>)
  datatype Usage = Usage(promptTokens: int, completionTokens: int)
  datatype Chunk = Chunk(id: Option<string>, model: Option<string>, usage: Option<Usage>, choice: Option<Choice>)

  /** One SSE event: `[DONE]`, a payload that is empty or does not parse, or a chunk. */
  datatype Input = Done | Unparseable | Parsed(chunk: Chunk)

  // ----- output: Anthropic Messages events -----

  datatype Block = TextBlock | ToolBlock(id: string, name: string)
  datatype Piece = TextDelta(text: string) | InputJson(json: string)
  datatype Event =
    | MessageStart(id: string, model: string, inputTokens: int)
    | BlockStart(index: int, block: Block)
    | BlockDelta(index: int, piece: Piece)
    | BlockStop(index: int)
    | MessageDelta(stopReason: string, inputTokens: int, outputTokens: int)
    | MessageStop
    | ErrorEvent(errorType: string)

  /** `current_content_index`, which keeps its default. */
  const TEXT_INDEX := 0

  datatype State = State(
    id: Option<string>, model: Option<string>, inputTokens: int, outputTokens: int,
    hasStarted: bool, textOpen: bool, tools: set<int>, finishReason: Option<string>)

  const INITIAL := State(None, None, 0, 0, false, false, {}, None)

  // ----- the translation -----

  function NonEmpty(s: Option<string>): Option<string> {
    if s.Some? && s.value != "" then s else None
  }

  function OrElse<T>(a: Option<T>, b: Option<T>): Option<T> {
    if a.Some? then a else b
  }

  function UnwrapOr<T>(a: Option<T>, b: T): T {
    if a.Some? then a.value else b
  }

  function MapFinishReason(reason: Option<string>): string {
    if reason == Some("length") then "max_tokens"
    else if reason == Some("tool_calls") || reason == Some("function_call") then "tool_use"
    else "end_turn"
  }

  predicate EndsWith(s: string, t: string) {
    |t| <= |s| && s[|s| - |t|..] == t
  }

  predicate IsErrorFinish(reason: Option<string>) {
    reason.Some? && (reason.value == "error" || EndsWith(reason.value, "_error"))
  }

  /** The tool block an OpenAI tool index is translated to, in `i64` arithmetic. */
  function ToolIndex(call: ToolCall): int {
    Wrap64(TEXT_INDEX + 1 + UnwrapOr(call.index, 0))
  }

  /** A call that carries an id and a name opens its block. */
  predicate Announces(call: ToolCall) {
    NonEmpty(call.id).Some? && call.name.Some?
  }

  function Arguments(call: ToolCall): string {
    UnwrapOr(call.arguments, "")
  }

  function Content(chunk: Chunk): string {
    if chunk.choice.Some? && chunk.choice.value.delta.Some? then UnwrapOr(chunk.choice.value.delta.value.content, "")
        else ""
  }

  function Calls(chunk: Chunk): seq<ToolCall> {
    if chunk.choice.Some? && chunk.choice.value.delta.Some? then UnwrapOr(chunk.choice.value.delta.value.toolCalls, [])
        else []
  }

  ghost function Ascending(s: set<int>): seq<int> {
    LessIsStrictOrder();
    Arrange((a, b) => a < b, s)
  }

  lemma LessIsStrictOrder()
    ensures StrictOrder((a: int, b: int) => a < b)
  {
  }

  function Stops(indices: seq<int>): seq<Event> {
    seq(|indices|, i requires 0 <= i < |indices| => BlockStop(indices[i]))
  }

  /** The end of the message: close what is open, then the verdict. */
  ghost function OnDone(s: State): seq<Event> {
    (if s.textOpen then [BlockStop(TEXT_INDEX)] else []) + Stops(Ascending(s.tools)) + Verdict(s)
  }

  function Verdict(s: State): seq<Event> {
    if IsErrorFinish(s.finishReason) then
      [ErrorEvent(if EndsWith(s.finishReason.value, "_error") then s.finishReason.value else "api_error")]
    else [MessageDelta(MapFinishReason(s.finishReason), s.inputTokens, s.outputTokens), MessageStop]
  }

  /** Id, model and token counts; zero counts are ignored. */
  function Noted(s: State, c: Chunk): State {
    s.(id := OrElse(c.id, s.id), model := OrElse(c.model, s.model),
       inputTokens := if c.usage.Some? && c.usage.value.promptTokens != 0 then c.usage.value.promptTokens
           else s.inputTokens,
       outputTokens := if c.usage.Some? && c.usage.value.completionTokens != 0 then c.usage.value.completionTokens
           else s.outputTokens)
  }

  function StartEvent(s: State, c: Chunk, fallbackId: string): Event {
    MessageStart(UnwrapOr(OrElse(NonEmpty(c.id), NonEmpty(s.id)), fallbackId),
                 UnwrapOr(OrElse(NonEmpty(c.model), NonEmpty(s.model)), "unknown"),
                 if c.usage.Some? && c.usage.value.promptTokens != 0 then c.usage.value.promptTokens else s.inputTokens)
  }

  function TextEvents(s: State, content: string): seq<Event> {
    if content == "" then []
    else (if s.textOpen then [] else [BlockStart(TEXT_INDEX, TextBlock)]) + [BlockDelta(TEXT_INDEX, TextDelta(content))]
  }

  function AfterText(s: State, content: string): State {
    if content == "" then s else s.(textOpen := true)
  }

  function CallEvents(s: State, call: ToolCall): seq<Event> {
    var i := ToolIndex(call);
    (if Announces(call) then
       (if s.textOpen && i !in s.tools then [BlockStop(TEXT_INDEX)] else [])
       + [BlockStart(i, ToolBlock(call.id.value, call.name.value))]
     else [])
    + (if Arguments(call) != "" then [BlockDelta(i, InputJson(Arguments(call)))] else [])
  }

  function AfterCall(s: State, call: ToolCall): State {
    if Announces(call) then
      s.(textOpen := s.textOpen && ToolIndex(call) in s.tools, tools := s.tools + {ToolIndex(call)})
    else s
  }

  function CallsEvents(s: State, calls: seq<ToolCall>): seq<Event>
    decreases |calls|
  {
    if calls == [] then [] else CallEvents(s, calls[0]) + CallsEvents(AfterCall(s, calls[0]), calls[1..])
  }

  function AfterCalls(s: State, calls: seq<ToolCall>): State
    decreases |calls|
  {
    if calls == [] then s else AfterCalls(AfterCall(s, calls[0]), calls[1..])
  }

  /** The state once id, counts and `message_start` are dealt with. */
  function Begun(s: State, c: Chunk): State {
    Noted(s, c).(hasStarted := true)
  }

  function AfterChunk(s: State, c: Chunk): State {
    var t := AfterCalls(AfterText(Begun(s, c), Content(c)), Calls(c));
    if c.choice.Some? && c.choice.value.finishReason.Some? then t.(finishReason := c.choice.value.finishReason) else t
  }

  function ChunkEvents(s: State, c: Chunk, fallbackId: string): seq<Event> {
    (if s.hasStarted then [] else [StartEvent(Noted(s, c), c, fallbackId)])
    + TextEvents(Begun(s, c), Content(c))
    + CallsEvents(AfterText(Begun(s, c), Content(c)), Calls(c))
  }

  function After(s: State, input: Input): State {
    if input.Parsed? then AfterChunk(s, input.chunk) else s
  }

  ghost function Translate(s: State, input: Input, fallbackId: string): seq<Event> {
    match input
    case Done => OnDone(s)
    case Unparseable => []
    case Parsed(c) => ChunkEvents(s, c, fallbackId)
  }

  ghost function TranslateAll(s: State, inputs: seq<Input>, fallbackId: string): seq<Event>
    decreases |inputs|
  {
    if inputs == [] then []
        else Translate(s, inputs[0], fallbackId) + TranslateAll(After(s, inputs[0]), inputs[1..], fallbackId)
  }

  function AfterAll(s: State, inputs: seq<Input>): State
    decreases |inputs|
  {
    if inputs == [] then s else AfterAll(After(s, inputs[0]), inputs[1..])
  }

  // ----- content is preserved -----

  function TextIn(e: Event): string {
    if e.BlockDelta? && e.piece.TextDelta? && e.index == 0 then e.piece.text else ""
  }

  function JsonIn(e: Event, i: int): string {
    if e.BlockDelta? && e.piece.InputJson? && e.index == i then e.piece.json else ""
  }

  /** The text deltas of block 0, in order. */
  function TextOf(events: seq<Event>): string {
    if events == [] then ""
    else TextIn(events[0]) + TextOf(events[1..])
  }

  /** All input fragments of block `i`, in order. */
  function JsonOf(events: seq<Event>, i: int): string {
    if events == [] then ""
    else JsonIn(events[0], i) + JsonOf(events[1..], i)
  }

  function ContentOf(inputs: seq<Input>): string {
    if inputs == [] then "" else (if inputs[0].Parsed? then Content(inputs[0].chunk) else "") + ContentOf(inputs[1..])
  }

  function CallsOf(inputs: seq<Input>): seq<ToolCall> {
    if inputs == [] then [] else (if inputs[0].Parsed? then Calls(inputs[0].chunk) else []) + CallsOf(inputs[1..])
  }

  function ArgumentsOf(calls: seq<ToolCall>, i: int): string {
    if calls == [] then ""
        else (if ToolIndex(calls[0]) == i then Arguments(calls[0]) else "") + ArgumentsOf(calls[1..], i)
  }

  lemma {:induction false} TextAppend(a: seq<Event>, b: seq<Event>)
    ensures TextOf(a + b) == TextOf(a) + TextOf(b)
  {
    if a == [] {
      assert a + b == b;
    } else {
      assert (a + b)[1..] == a[1..] + b;
      TextAppend(a[1..], b);
    }
  }

  lemma {:induction false} JsonAppend(a: seq<Event>, b: seq<Event>, i: int)
    ensures JsonOf(a + b, i) == JsonOf(a, i) + JsonOf(b, i)
  {
    if a == [] {
      assert a + b == b;
    } else {
      assert (a + b)[1..] == a[1..] + b;
      JsonAppend(a[1..], b, i);
    }
  }

  lemma DeltasAppend(a: seq<Event>, b: seq<Event>, i: int)
    ensures TextOf(a + b) == TextOf(a) + TextOf(b)
    ensures JsonOf(a + b, i) == JsonOf(a, i) + JsonOf(b, i)
  {
    TextAppend(a, b);
    JsonAppend(a, b, i);
  }

  lemma {:induction false} ArgumentsAppend(a: seq<ToolCall>, b: seq<ToolCall>, i: int)
    ensures ArgumentsOf(a + b, i) == ArgumentsOf(a, i) + ArgumentsOf(b, i)
  {
    if a == [] {
      assert a + b == b;
    } else {
      assert (a + b)[1..] == a[1..] + b;
      ArgumentsAppend(a[1..], b, i);
    }
  }

  lemma {:induction false} StopsCarryNothing(indices: seq<int>, i: int)
    ensures TextOf(Stops(indices)) == "" && JsonOf(Stops(indices), i) == ""
  {
    if indices != [] {
      assert Stops(indices)[1..] == Stops(indices[1..]);
      StopsCarryNothing(indices[1..], i);
    }
  }

  lemma DoneCarriesNothing(s: State, i: int)
    ensures TextOf(OnDone(s)) == "" && JsonOf(OnDone(s), i) == ""
  {
    var head := if s.textOpen then [BlockStop(TEXT_INDEX)] else [];
    StopsCarryNothing(Ascending(s.tools), i);
    DeltasAppend(head, Stops(Ascending(s.tools)), i);
    DeltasAppend(head + Stops(Ascending(s.tools)), Verdict(s), i);
    VerdictCarriesNothing(s, i);
  }

  lemma VerdictCarriesNothing(s: State, i: int)
    ensures TextOf(Verdict(s)) == "" && JsonOf(Verdict(s), i) == ""
  {
    DeltasAppend([Verdict(s)[0]], Verdict(s)[1..], i);
    assert Verdict(s) == [Verdict(s)[0]] + Verdict(s)[1..];
  }

  lemma CallDeltas(s: State, call: ToolCall, i: int)
    ensures TextOf(CallEvents(s, call)) == ""
    ensures JsonOf(CallEvents(s, call), i) == if ToolIndex(call) == i then Arguments(call) else ""
  {
    var stop := if Announces(call) && s.textOpen && ToolIndex(call) !in s.tools then [BlockStop(TEXT_INDEX)] else [];
    var start := if Announces(call) then [BlockStart(ToolIndex(call), ToolBlock(call.id.value, call.name.value))]
        else [];
    var delta := if Arguments(call) != "" then [BlockDelta(ToolIndex(call), InputJson(Arguments(call)))] else [];
    assert CallEvents(s, call) == (stop + start) + delta;
    DeltasAppend(stop, start, i);
    DeltasAppend(stop + start, delta, i);
    Alone(BlockStop(TEXT_INDEX), i);
    if Announces(call) { Alone(BlockStart(ToolIndex(call), ToolBlock(call.id.value, call.name.value)), i); }
    Alone(BlockDelta(ToolIndex(call), InputJson(Arguments(call))), i);
  }

  lemma Alone(e: Event, i: int)
    ensures TextOf([e]) == TextIn(e) && JsonOf([e], i) == JsonIn(e, i)
  {
  }

  lemma {:induction false} CallsDeltas(s: State, calls: seq<ToolCall>, i: int)
    ensures TextOf(CallsEvents(s, calls)) == "" && JsonOf(CallsEvents(s, calls), i) == ArgumentsOf(calls, i)
    decreases |calls|
  {
    if calls != [] {
      CallDeltas(s, calls[0], i);
      CallsDeltas(AfterCall(s, calls[0]), calls[1..], i);
      DeltasAppend(CallEvents(s, calls[0]), CallsEvents(AfterCall(s, calls[0]), calls[1..]), i);
    }
  }

  lemma TextDeltas(s: State, content: string, i: int)
    ensures TextOf(TextEvents(s, content)) == content && JsonOf(TextEvents(s, content), i) == ""
  {
    var start := if s.textOpen then [] else [BlockStart(TEXT_INDEX, TextBlock)];
    DeltasAppend(start, [BlockDelta(TEXT_INDEX, TextDelta(content))], i);
  }

  lemma ChunkDeltas(s: State, c: Chunk, fallbackId: string, i: int)
    ensures TextOf(ChunkEvents(s, c, fallbackId)) == Content(c)
    ensures JsonOf(ChunkEvents(s, c, fallbackId), i) == ArgumentsOf(Calls(c), i)
  {
    var start := if s.hasStarted then [] else [StartEvent(Noted(s, c), c, fallbackId)];
    var text := TextEvents(Begun(s, c), Content(c));
    var calls := CallsEvents(AfterText(Begun(s, c), Content(c)), Calls(c));
    DeltasAppend(start, text, i);
    DeltasAppend(start + text, calls, i);
    TextDeltas(Begun(s, c), Content(c), i);
    CallsDeltas(AfterText(Begun(s, c), Content(c)), Calls(c), i);
  }

  /** For every event sequence, the text streamed out is the content streamed in, and block
      `i` receives exactly the arguments of the tool calls translated to it. */
  lemma {:induction false} ContentPreserved(s: State, inputs: seq<Input>, fallbackId: string, i: int)
    ensures TextOf(TranslateAll(s, inputs, fallbackId)) == ContentOf(inputs)
    ensures JsonOf(TranslateAll(s, inputs, fallbackId), i) == ArgumentsOf(CallsOf(inputs), i)
    decreases |inputs|
  {
    if inputs != [] {
      ContentPreserved(After(s, inputs[0]), inputs[1..], fallbackId, i);
      DeltasAppend(Translate(s, inputs[0], fallbackId), TranslateAll(After(s, inputs[0]), inputs[1..], fallbackId), i);
      match inputs[0]
      case Done => DoneCarriesNothing(s, i); assert CallsOf(inputs) == CallsOf(inputs[1..]);
      case Unparseable => assert CallsOf(inputs) == CallsOf(inputs[1..]);
      case Parsed(c) =>
        ChunkDeltas(s, c, fallbackId, i);
        ArgumentsAppend(Calls(c), CallsOf(inputs[1..]), i);
    }
  }

  // ----- which block a tool goes to -----

  /** The tool index a call carries; an absent one counts as 0. */
  function OwnIndex(call: ToolCall): int {
    if call.index.Some? then call.index.value else 0
  }

  /** Every call's index is an `i64`, as the code reads it. */
  predicate Indexable(calls: seq<ToolCall>) {
    forall k :: 0 <= k < |calls| ==> I64_MIN <= OwnIndex(calls[k]) <= I64_MAX
  }

  /** The block of a tool index: one up, and from the last `i64` around to the first. */
  function BlockFor(i: int): int {
    if i == I64_MAX then I64_MIN else i + 1
  }

  /** The arguments of the calls that carry index `i`, in order. */
  function OwnArguments(calls: seq<ToolCall>, i: int): string {
    if calls == [] then ""
    else (if OwnIndex(calls[0]) == i && calls[0].arguments.Some? then calls[0].arguments.value else "")
         + OwnArguments(calls[1..], i)
  }

  lemma OneBlockUp(call: ToolCall)
    requires I64_MIN <= OwnIndex(call) <= I64_MAX
    ensures ToolIndex(call) == BlockFor(OwnIndex(call))
  {
  }

  lemma {:induction false} ArgumentsByIndex(calls: seq<ToolCall>, i: int)
    requires Indexable(calls) && I64_MIN <= i <= I64_MAX
    ensures ArgumentsOf(calls, BlockFor(i)) == OwnArguments(calls, i)
  {
    if calls != [] {
      OneBlockUp(calls[0]);
      ArgumentsByIndex(calls[1..], i);
    }
  }

  /** Block `i + 1` receives exactly the arguments of the calls that carry tool index `i`; the
      last index goes to the first block number. */
  lemma ToolsKeepTheirIndex(inputs: seq<Input>, fallbackId: string, i: int)
    requires Indexable(CallsOf(inputs)) && I64_MIN <= i <= I64_MAX
    ensures i < I64_MAX ==>
              JsonOf(TranslateAll(INITIAL, inputs, fallbackId), i + 1) == OwnArguments(CallsOf(inputs), i)
    ensures i == I64_MAX ==>
              JsonOf(TranslateAll(INITIAL, inputs, fallbackId), I64_MIN) == OwnArguments(CallsOf(inputs), i)
  {
    ContentPreserved(INITIAL, inputs, fallbackId, BlockFor(i));
    ArgumentsByIndex(CallsOf(inputs), i);
  }

  /** The tools started at block `i`, in order. */
  function StartsOf(events: seq<Event>, i: int): seq<(string, string)> {
    if events == [] then []
    else StartIn(events[0], i) + StartsOf(events[1..], i)
  }

  function StartIn(e: Event, i: int): seq<(string, string)> {
    if e.BlockStart? && e.block.ToolBlock? && e.index == i then [(e.block.id, e.block.name)] else []
  }

  /** The ids and names announced for index `i`, in order. */
  function OwnAnnouncements(calls: seq<ToolCall>, i: int): seq<(string, string)> {
    if calls == [] then [] else OwnAnnouncement(calls[0], i) + OwnAnnouncements(calls[1..], i)
  }

  function OwnAnnouncement(call: ToolCall, i: int): seq<(string, string)> {
    if OwnIndex(call) == i && call.id.Some? && call.id.value != "" && call.name.Some?
        then [(call.id.value, call.name.value)]
    else []
  }

  lemma {:induction false} StartsAppend(a: seq<Event>, b: seq<Event>, i: int)
    ensures StartsOf(a + b, i) == StartsOf(a, i) + StartsOf(b, i)
  {
    if a == [] {
      assert a + b == b;
    } else {
      assert (a + b)[1..] == a[1..] + b;
      StartsAppend(a[1..], b, i);
      Assoc(StartIn(a[0], i), StartsOf(a[1..], i), StartsOf(b, i));
    }
  }

  lemma {:induction false} AnnouncementsAppend(a: seq<ToolCall>, b: seq<ToolCall>, i: int)
    ensures OwnAnnouncements(a + b, i) == OwnAnnouncements(a, i) + OwnAnnouncements(b, i)
  {
    if a == [] {
      assert a + b == b;
    } else {
      assert (a + b)[1..] == a[1..] + b;
      AnnouncementsAppend(a[1..], b, i);
      Assoc(OwnAnnouncement(a[0], i), OwnAnnouncements(a[1..], i), OwnAnnouncements(b, i));
    }
  }

  lemma NoToolStarts(e: Event, i: int)
    requires !e.BlockStart? || e.block.TextBlock?
    ensures StartsOf([e], i) == []
  {
    assert [e][1..] == [];
  }

  lemma {:induction false} StopsStartNothing(indices: seq<int>, i: int)
    ensures StartsOf(Stops(indices), i) == []
  {
    if indices != [] {
      assert Stops(indices)[1..] == Stops(indices[1..]);
      StopsStartNothing(indices[1..], i);
    }
  }

  lemma DoneStartsNothing(s: State, i: int)
    ensures StartsOf(OnDone(s), i) == []
  {
    var head, v := if s.textOpen then [BlockStop(TEXT_INDEX)] else [], Verdict(s);
    NoToolStarts(BlockStop(TEXT_INDEX), i);
    StopsStartNothing(Ascending(s.tools), i);
    StartsAppend(head, Stops(Ascending(s.tools)), i);
    StartsAppend(head + Stops(Ascending(s.tools)), v, i);
    StartsAppend([v[0]], v[1..], i);
    assert v == [v[0]] + v[1..];
    NoToolStarts(v[0], i);
    NoToolStarts(MessageStop, i);
  }

  lemma CallStarts(s: State, call: ToolCall, i: int)
    requires I64_MIN <= OwnIndex(call) <= I64_MAX && I64_MIN <= i <= I64_MAX
    ensures StartsOf(CallEvents(s, call), BlockFor(i)) == OwnAnnouncement(call, i)
  {
    OneBlockUp(call);
    var stop := if Announces(call) && s.textOpen && ToolIndex(call) !in s.tools then [BlockStop(TEXT_INDEX)] else [];
    var delta := if Arguments(call) != "" then [BlockDelta(ToolIndex(call), InputJson(Arguments(call)))] else [];
    NoToolStarts(BlockStop(TEXT_INDEX), BlockFor(i));
    NoToolStarts(BlockDelta(ToolIndex(call), InputJson(Arguments(call))), BlockFor(i));
    if Announces(call) {
      var start := BlockStart(ToolIndex(call), ToolBlock(call.id.value, call.name.value));
      assert CallEvents(s, call) == (stop + [start]) + delta && [start][1..] == [];
      StartsAppend(stop, [start], BlockFor(i));
      StartsAppend(stop + [start], delta, BlockFor(i));
    } else {
      assert CallEvents(s, call) == delta;
    }
  }

  lemma {:induction false} CallsStart(s: State, calls: seq<ToolCall>, i: int)
    requires Indexable(calls) && I64_MIN <= i <= I64_MAX
    ensures StartsOf(CallsEvents(s, calls), BlockFor(i)) == OwnAnnouncements(calls, i)
    decreases |calls|
  {
    if calls != [] {
      CallStarts(s, calls[0], i);
      CallsStart(AfterCall(s, calls[0]), calls[1..], i);
      StartsAppend(CallEvents(s, calls[0]), CallsEvents(AfterCall(s, calls[0]), calls[1..]), BlockFor(i));
    }
  }

  lemma ChunkStarts(s: State, c: Chunk, fallbackId: string, i: int)
    requires Indexable(Calls(c)) && I64_MIN <= i <= I64_MAX
    ensures StartsOf(ChunkEvents(s, c, fallbackId), BlockFor(i)) == OwnAnnouncements(Calls(c), i)
  {
    var start := if s.hasStarted then [] else [StartEvent(Noted(s, c), c, fallbackId)];
    var text := TextEvents(Begun(s, c), Content(c));
    var calls := CallsEvents(AfterText(Begun(s, c), Content(c)), Calls(c));
    StartsAppend(start, text, BlockFor(i));
    StartsAppend(start + text, calls, BlockFor(i));
    NoToolStarts(StartEvent(Noted(s, c), c, fallbackId), BlockFor(i));
    TextStartsNoTool(Begun(s, c), Content(c), BlockFor(i));
    CallsStart(AfterText(Begun(s, c), Content(c)), Calls(c), i);
  }

  lemma TextStartsNoTool(s: State, content: string, i: int)
    ensures StartsOf(TextEvents(s, content), i) == []
  {
    var start, delta := BlockStart(TEXT_INDEX, TextBlock), BlockDelta(TEXT_INDEX, TextDelta(content));
    NoToolStarts(start, i);
    NoToolStarts(delta, i);
    StartsAppend([start], [delta], i);
    if s.textOpen { assert [] + [delta] == [delta]; }
  }

  /** And it is started with exactly the ids and names announced for tool index `i`. */
  lemma {:induction false} ToolsKeepTheirNames(s: State, inputs: seq<Input>, fallbackId: string, i: int)
    requires Indexable(CallsOf(inputs)) && I64_MIN <= i <= I64_MAX
    ensures StartsOf(TranslateAll(s, inputs, fallbackId), BlockFor(i)) == OwnAnnouncements(CallsOf(inputs), i)
    decreases |inputs|
  {
    if inputs != [] {
      var rest := CallsOf(inputs[1..]);
      var first := if inputs[0].Parsed? then Calls(inputs[0].chunk) else [];
      IndexableParts(first, rest);
      ToolsKeepTheirNames(After(s, inputs[0]), inputs[1..], fallbackId, i);
      StartsAppend(Translate(s, inputs[0], fallbackId), TranslateAll(After(s, inputs[0]), inputs[1..], fallbackId),
          BlockFor(i));
      AnnouncementsAppend(first, rest, i);
      match inputs[0]
      case Done => DoneStartsNothing(s, BlockFor(i));
      case Unparseable =>
      case Parsed(c) => ChunkStarts(s, c, fallbackId, i);
    }
  }

  lemma IndexableParts(a: seq<ToolCall>, b: seq<ToolCall>)
    requires Indexable(a + b)
    ensures Indexable(a) && Indexable(b)
  {
    assert forall k :: 0 <= k < |a| ==> (a + b)[k] == a[k];
    assert forall k :: 0 <= k < |b| ==> (a + b)[|a| + k] == b[k];
  }

  /** Each index a call carries is announced at most once, and before any of its arguments. */
  predicate OwnDisciplined(announced: set<int>, calls: seq<ToolCall>)
    decreases |calls|
  {
    calls == []
    || (var call, i := calls[0], OwnIndex(calls[0]);
        var announces := call.id.Some? && call.id.value != "" && call.name.Some?;
        && (announces ==> i !in announced)
        && (call.arguments.Some? && call.arguments.value != "" ==> announces || i in announced)
        && OwnDisciplined(if announces then announced + {i} else announced, calls[1..]))
  }

  lemma {:induction false} DisciplineByIndex(own: set<int>, announced: set<int>, calls: seq<ToolCall>)
    requires Indexable(calls) && forall i :: I64_MIN <= i <= I64_MAX ==> (i in own <==> BlockFor(i) in announced)
    ensures OwnDisciplined(own, calls) <==> Disciplined(announced, calls)
    decreases |calls|
  {
    if calls != [] {
      OneBlockUp(calls[0]);
      var next := if Announces(calls[0]) then own + {OwnIndex(calls[0])} else own;
      DisciplineByIndex(next, Mark(announced, calls[0]), calls[1..]);
    }
  }

  // ----- the output is a well-formed message -----

  datatype Kind = Text | Tool

  /** Reads an output: nothing yet, inside a message with these blocks open, past
      `message_delta`, past the end, or refused. */
  datatype Reader = Fresh | Inside(open: map<int, Kind>) | Ending | Closed | Refused

  function Read(r: Reader, e: Event): Reader {
    match r
    case Fresh => if e.MessageStart? then Inside(map[]) else Refused
    case Inside(open) =>
      (match e
       case BlockStart(i, b) => if i in open then Refused else Inside(open[i := if b.TextBlock? then Text else Tool])
       case BlockDelta(i, p) => if i in open && open[i] == (if p.TextDelta? then Text else Tool) then r else Refused
       case BlockStop(i) => if i in open then Inside(open - {i}) else Refused
       case MessageDelta(_, _, _) => if open == map[] then Ending else Refused
       case ErrorEvent(_) => if open == map[] then Closed else Refused
       case _ => Refused)
    case Ending => if e.MessageStop? then Closed else Refused
    case _ => Refused
  }

  function ReadAll(r: Reader, events: seq<Event>): Reader
    decreases |events|
  {
    if events == [] then r else ReadAll(Read(r, events[0]), events[1..])
  }

  lemma {:induction false} ReadAppend(r: Reader, a: seq<Event>, b: seq<Event>)
    ensures ReadAll(r, a + b) == ReadAll(ReadAll(r, a), b)
    decreases |a|
  {
    if a == [] {
      assert a + b == b;
    } else {
      assert (a + b)[1..] == a[1..] + b;
      ReadAppend(Read(r, a[0]), a[1..], b);
    }
  }

  lemma {:induction false} RefusedStays(events: seq<Event>)
    ensures ReadAll(Refused, events) == Refused
  {
    if events != [] { RefusedStays(events[1..]); }
  }

  /** `message_start` first and once, deltas inside an open block of their kind, starts and
      stops alternating per index, nothing open at the end. */
  predicate WellFormed(events: seq<Event>) {
    ReadAll(Fresh, events) == Closed
  }

  /** The blocks the translator's state says are open. */
  function OpenBlocks(s: State): map<int, Kind> {
    map i | i in s.tools + (if s.textOpen then {TEXT_INDEX} else {}) :: if i in s.tools then Tool else Text
  }

  function ReaderOf(s: State): Reader {
    if s.hasStarted then Inside(OpenBlocks(s)) else Fresh
  }

  /** A state the reader follows: nothing open before the start, and the text block and a
      tool block never under one index. */
  predicate Sane(s: State) {
    && (!s.hasStarted ==> !s.textOpen && s.tools == {})
    && !(s.textOpen && TEXT_INDEX in s.tools)
  }

  predicate CallInOrder(announced: set<int>, call: ToolCall) {
    && (Announces(call) ==> ToolIndex(call) !in announced)
    && (Arguments(call) != "" ==> Announces(call) || ToolIndex(call) in announced)
  }

  function Mark(announced: set<int>, call: ToolCall): set<int> {
    if Announces(call) then announced + {ToolIndex(call)} else announced
  }

  function Announced(announced: set<int>, calls: seq<ToolCall>): set<int>
    decreases |calls|
  {
    if calls == [] then announced else Announced(Mark(announced, calls[0]), calls[1..])
  }

  /** Each tool index is announced at most once, and before any of its arguments. */
  predicate Disciplined(announced: set<int>, calls: seq<ToolCall>)
    decreases |calls|
  {
    calls == [] || (CallInOrder(announced, calls[0]) && Disciplined(Mark(announced, calls[0]), calls[1..]))
  }

  /** Text finds its block free: no tool has taken index 0, which only tool index -1 can. */
  predicate TextFits(announced: set<int>, content: string) {
    content == "" || TEXT_INDEX !in announced
  }

  /** Chunk by chunk, the text fits and the calls are disciplined. */
  predicate Orderly(announced: set<int>, body: seq<Input>)
    decreases |body|
  {
    body == []
    || if body[0].Parsed? then
         && TextFits(announced, Content(body[0].chunk)) && Disciplined(announced, Calls(body[0].chunk))
         && Orderly(Announced(announced, Calls(body[0].chunk)), body[1..])
       else Orderly(announced, body[1..])
  }

  lemma {:induction false} DisciplinedAppend(announced: set<int>, a: seq<ToolCall>, b: seq<ToolCall>)
    ensures Disciplined(announced, a + b) <==> Disciplined(announced, a) && Disciplined(Announced(announced, a), b)
    decreases |a|
  {
    if a == [] {
      assert a + b == b;
    } else {
      assert (a + b)[1..] == a[1..] + b;
      DisciplinedAppend(Mark(announced, a[0]), a[1..], b);
    }
  }

  predicate AvoidsText(calls: seq<ToolCall>) {
    forall k :: 0 <= k < |calls| ==> ToolIndex(calls[k]) != TEXT_INDEX
  }

  lemma {:induction false} AnnouncedAvoidsText(announced: set<int>, calls: seq<ToolCall>)
    requires TEXT_INDEX !in announced && AvoidsText(calls)
    ensures TEXT_INDEX !in Announced(announced, calls)
    decreases |calls|
  {
    if calls != [] { AnnouncedAvoidsText(Mark(announced, calls[0]), calls[1..]); }
  }

  lemma CallsSplit(a: seq<ToolCall>, b: seq<ToolCall>)
    requires AvoidsText(a + b)
    ensures AvoidsText(a) && AvoidsText(b)
  {
    assert forall k :: 0 <= k < |a| ==> (a + b)[k] == a[k];
    assert forall k :: 0 <= k < |b| ==> (a + b)[|a| + k] == b[k];
  }

  /** Where tool index -1 is not used, order is a matter of the tool calls alone. */
  lemma {:induction false} OrderlyIsDisciplined(announced: set<int>, body: seq<Input>)
    requires TEXT_INDEX !in announced && AvoidsText(CallsOf(body))
    ensures Orderly(announced, body) <==> Disciplined(announced, CallsOf(body))
    decreases |body|
  {
    if body != [] {
      var rest := CallsOf(body[1..]);
      if body[0].Parsed? {
        var calls := Calls(body[0].chunk);
        CallsSplit(calls, rest);
        AnnouncedAvoidsText(announced, calls);
        DisciplinedAppend(announced, calls, rest);
        OrderlyIsDisciplined(Announced(announced, calls), body[1..]);
      } else {
        assert CallsOf(body) == rest;
        OrderlyIsDisciplined(announced, body[1..]);
      }
    }
  }

  /** The translator's set of started tools is the set of indices announced so far. */
  lemma {:induction false} ToolsAreAnnounced(s: State, calls: seq<ToolCall>)
    ensures AfterCalls(s, calls).tools == Announced(s.tools, calls)
    decreases |calls|
  {
    if calls != [] { ToolsAreAnnounced(AfterCall(s, calls[0]), calls[1..]); }
  }

  lemma TextRead(s: State, content: string)
    requires Sane(s) && s.hasStarted
    ensures TextFits(s.tools, content) ==> Sane(AfterText(s, content))
    ensures ReadAll(ReaderOf(s), TextEvents(s, content))
            == if TextFits(s.tools, content) then ReaderOf(AfterText(s, content)) else Refused
  {
    if content != "" {
      var start := if s.textOpen then [] else [BlockStart(TEXT_INDEX, TextBlock)];
      var delta := BlockDelta(TEXT_INDEX, TextDelta(content));
      ReadAppend(ReaderOf(s), start, [delta]);
      RefusedStays([delta]);
      if TEXT_INDEX !in s.tools {
        assert OpenBlocks(AfterText(s, content)) == OpenBlocks(s)[TEXT_INDEX := Text];
        assert ReadAll(ReaderOf(s), start) == ReaderOf(AfterText(s, content));
      }
    }
  }

  lemma AnnounceRead(s: State, call: ToolCall)
    requires Sane(s) && s.hasStarted && Announces(call)
    ensures var stop := if s.textOpen && ToolIndex(call) !in s.tools then [BlockStop(TEXT_INDEX)] else [];
      ReadAll(ReaderOf(s), stop + [BlockStart(ToolIndex(call), ToolBlock(call.id.value, call.name.value))])
      == if ToolIndex(call) in s.tools then Refused else ReaderOf(AfterCall(s, call))
  {
    var i := ToolIndex(call);
    var stop := if s.textOpen && i !in s.tools then [BlockStop(TEXT_INDEX)] else [];
    var start := BlockStart(i, ToolBlock(call.id.value, call.name.value));
    ReadAppend(ReaderOf(s), stop, [start]);
    if i !in s.tools {
      ToolsLeft(s);
      assert ReadAll(ReaderOf(s), stop) == Inside(ToolBlocks(s.tools));
      assert OpenBlocks(AfterCall(s, call)) == ToolBlocks(s.tools)[i := Tool];
    }
  }

  function ToolBlocks(tools: set<int>): map<int, Kind> {
    map i | i in tools :: Tool
  }

  /** Without the text block, the tool blocks are left. */
  lemma ToolsLeft(s: State)
    requires Sane(s)
    ensures if s.textOpen then TEXT_INDEX in OpenBlocks(s) && OpenBlocks(s) - {TEXT_INDEX} == ToolBlocks(s.tools)
            else OpenBlocks(s) == ToolBlocks(s.tools)
  {
  }

  lemma CallRead(s: State, call: ToolCall)
    requires Sane(s) && s.hasStarted
    ensures CallInOrder(s.tools, call) ==> Sane(AfterCall(s, call))
    ensures ReadAll(ReaderOf(s), CallEvents(s, call))
            == if CallInOrder(s.tools, call) then ReaderOf(AfterCall(s, call)) else Refused
  {
    var i := ToolIndex(call);
    var head := if Announces(call) then
                  (if s.textOpen && i !in s.tools then [BlockStop(TEXT_INDEX)] else [])
                      + [BlockStart(i, ToolBlock(call.id.value, call.name.value))]
                else [];
    var delta := if Arguments(call) != "" then [BlockDelta(i, InputJson(Arguments(call)))] else [];
    ReadAppend(ReaderOf(s), head, delta);
    RefusedStays(delta);
    if Announces(call) { AnnounceRead(s, call); }
  }

  lemma {:induction false} CallsRead(s: State, calls: seq<ToolCall>)
    requires Sane(s) && s.hasStarted
    ensures Disciplined(s.tools, calls) ==> Sane(AfterCalls(s, calls)) && AfterCalls(s, calls).hasStarted
    ensures ReadAll(ReaderOf(s), CallsEvents(s, calls))
            == if Disciplined(s.tools, calls) then ReaderOf(AfterCalls(s, calls)) else Refused
    decreases |calls|
  {
    if calls != [] {
      CallRead(s, calls[0]);
      var rest := CallsEvents(AfterCall(s, calls[0]), calls[1..]);
      ReadAppend(ReaderOf(s), CallEvents(s, calls[0]), rest);
      RefusedStays(rest);
      if CallInOrder(s.tools, calls[0]) { CallsRead(AfterCall(s, calls[0]), calls[1..]); }
    }
  }

  predicate ChunkFits(tools: set<int>, c: Chunk) {
    TextFits(tools, Content(c)) && Disciplined(tools, Calls(c))
  }

  lemma BeginRead(s: State, c: Chunk, fallbackId: string)
    requires Sane(s)
    ensures Sane(Begun(s, c))
    ensures ReadAll(ReaderOf(s), if s.hasStarted then [] else [StartEvent(Noted(s, c), c, fallbackId)])
        == ReaderOf(Begun(s, c))
  {
    assert !s.hasStarted ==> OpenBlocks(Begun(s, c)) == map[];
    assert OpenBlocks(Begun(s, c)) == OpenBlocks(s);
  }

  lemma ChunkRead(s: State, c: Chunk, fallbackId: string)
    requires Sane(s)
    ensures ChunkFits(s.tools, c) ==> Sane(AfterChunk(s, c)) && AfterChunk(s, c).hasStarted
    ensures AfterChunk(s, c).tools == Announced(s.tools, Calls(c))
    ensures ReadAll(ReaderOf(s), ChunkEvents(s, c, fallbackId)) == if ChunkFits(s.tools, c)
        then ReaderOf(AfterChunk(s, c)) else Refused
  {
    var start := if s.hasStarted then [] else [StartEvent(Noted(s, c), c, fallbackId)];
    var begun := Begun(s, c);
    var texted := AfterText(begun, Content(c));
    var text, calls := TextEvents(begun, Content(c)), CallsEvents(texted, Calls(c));
    BeginRead(s, c, fallbackId);
    ReadAppend(ReaderOf(s), start + text, calls);
    ReadAppend(ReaderOf(s), start, text);
    TextRead(begun, Content(c));
    RefusedStays(calls);
    ToolsAreAnnounced(texted, Calls(c));
    if TextFits(s.tools, Content(c)) {
      CallsRead(texted, Calls(c));
      assert OpenBlocks(AfterChunk(s, c)) == OpenBlocks(AfterCalls(texted, Calls(c)));
    }
  }

  /** A stream body is read back as the translator's own state, or refused. */
  lemma {:induction false} BodyRead(s: State, body: seq<Input>, fallbackId: string)
    requires Sane(s) && Done !in body
    ensures Orderly(s.tools, body) ==> Sane(AfterAll(s, body))
    ensures Orderly(s.tools, body) ==>
        (AfterAll(s, body).hasStarted <==> s.hasStarted || exists k :: 0 <= k < |body| && body[k].Parsed?)
    ensures ReadAll(ReaderOf(s), TranslateAll(s, body, fallbackId))
            == if Orderly(s.tools, body) then ReaderOf(AfterAll(s, body)) else Refused
    decreases |body|
  {
    if body != [] {
      var rest := TranslateAll(After(s, body[0]), body[1..], fallbackId);
      assert body == [body[0]] + body[1..];
      ReadAppend(ReaderOf(s), Translate(s, body[0], fallbackId), rest);
      RefusedStays(rest);
      if body[0].Parsed? { ChunkRead(s, body[0].chunk, fallbackId); }
      if body[0].Parsed? ==> ChunkFits(s.tools, body[0].chunk) { BodyRead(After(s, body[0]), body[1..], fallbackId); }
    }
  }

  lemma {:induction false} StopsRead(open: map<int, Kind>, indices: seq<int>)
    requires forall i, j :: 0 <= i < j < |indices| ==> indices[i] != indices[j]
    requires forall i :: 0 <= i < |indices| ==> indices[i] in open
    ensures ReadAll(Inside(open), Stops(indices)) == Inside(open - (set i | i in indices))
    decreases |indices|
  {
    if indices == [] {
      assert open - (set i | i in indices) == open;
    } else {
      assert Stops(indices)[1..] == Stops(indices[1..]);
      StopsRead(open - {indices[0]}, indices[1..]);
      assert indices == [indices[0]] + indices[1..];
      assert (open - {indices[0]}) - (set i | i in indices[1..]) == open - (set i | i in indices);
    }
  }

  /** Stopping the text block and every tool block leaves nothing open. */
  lemma ClosingRead(s: State)
    requires Sane(s)
    ensures ReadAll(ReaderOf(s), (if s.textOpen then [BlockStop(TEXT_INDEX)] else []) + Stops(Ascending(s.tools)))
            == if s.hasStarted then Inside(map[]) else Fresh
  {
    var head := if s.textOpen then [BlockStop(TEXT_INDEX)] else [];
    var order := Ascending(s.tools);
    ReadAppend(ReaderOf(s), head, Stops(order));
    if s.hasStarted {
      ToolsLeft(s);
      assert ReadAll(ReaderOf(s), head) == Inside(ToolBlocks(s.tools));
      AscendingElements(s.tools);
      StopsRead(ToolBlocks(s.tools), order);
      assert ToolBlocks(s.tools) - (set i | i in order) == map[];
    } else {
      AscendingOfNone();
    }
  }

  lemma AscendingElements(s: set<int>)
    ensures forall i :: i in Ascending(s) <==> i in s
    ensures forall i, j :: 0 <= i < j < |Ascending(s)| ==> Ascending(s)[i] != Ascending(s)[j]
  {
  }

  /** `[DONE]` closes every open block and ends the message. */
  lemma DoneRead(s: State)
    requires Sane(s)
    ensures ReadAll(ReaderOf(s), OnDone(s)) == if s.hasStarted then Closed else Refused
  {
    ClosingRead(s);
    ReadAppend(ReaderOf(s), (if s.textOpen then [BlockStop(TEXT_INDEX)] else []) + Stops(Ascending(s.tools)),
        Verdict(s));
    VerdictRead(s);
  }

  lemma AscendingOfNone()
    ensures Ascending({}) == []
  {
    LessIsStrictOrder();
    ArrangeUnique((a: int, b: int) => a < b, [], {});
  }

  lemma VerdictRead(s: State)
    ensures ReadAll(Inside(map[]), Verdict(s)) == Closed && ReadAll(Fresh, Verdict(s)) == Refused
  {
    RefusedStays(Verdict(s)[1..]);
    assert ReadAll(Ending, [MessageStop]) == Closed;
    if !IsErrorFinish(s.finishReason) { assert Verdict(s)[1..] == [MessageStop]; }
  }

  lemma {:induction false} AllAppend(s: State, a: seq<Input>, b: seq<Input>, fallbackId: string)
    ensures TranslateAll(s, a + b, fallbackId)
        == TranslateAll(s, a, fallbackId) + TranslateAll(AfterAll(s, a), b, fallbackId)
    decreases |a|
  {
    if a == [] {
      assert a + b == b;
    } else {
      assert (a + b)[1..] == a[1..] + b;
      AllAppend(After(s, a[0]), a[1..], b, fallbackId);
      Assoc(Translate(s, a[0], fallbackId), TranslateAll(After(s, a[0]), a[1..], fallbackId),
            TranslateAll(AfterAll(After(s, a[0]), a[1..]), b, fallbackId));
    }
  }

  // ----- after the end -----

  predicate QuietCall(call: ToolCall) {
    !Announces(call) && Arguments(call) == ""
  }

  /** An input that puts nothing out once the message has started. */
  predicate Quiet(input: Input) {
    && input != Done
    && (input.Parsed? ==>
          && Content(input.chunk) == ""
          && forall k :: 0 <= k < |Calls(input.chunk)| ==> QuietCall(Calls(input.chunk)[k]))
  }

  predicate Silent(inputs: seq<Input>) {
    forall k :: 0 <= k < |inputs| ==> Quiet(inputs[k])
  }

  lemma {:induction false} SilentCalls(s: State, calls: seq<ToolCall>)
    ensures CallsEvents(s, calls) == [] <==> forall k :: 0 <= k < |calls| ==> QuietCall(calls[k])
    decreases |calls|
  {
    if calls != [] {
      SilentCalls(AfterCall(s, calls[0]), calls[1..]);
      assert CallEvents(s, calls[0]) == [] <==> QuietCall(calls[0]);
      assert calls == [calls[0]] + calls[1..];
    }
  }

  lemma SilentInput(s: State, input: Input, fallbackId: string)
    requires s.hasStarted
    ensures Translate(s, input, fallbackId) == [] <==> Quiet(input)
  {
    match input
    case Done => assert |OnDone(s)| >= |Verdict(s)| >= 1;
    case Unparseable =>
    case Parsed(c) =>
      SilentCalls(AfterText(Begun(s, c), Content(c)), Calls(c));
  }

  lemma {:induction false} CallsKeepStarted(s: State, calls: seq<ToolCall>)
    ensures AfterCalls(s, calls).hasStarted == s.hasStarted
    decreases |calls|
  {
    if calls != [] { CallsKeepStarted(AfterCall(s, calls[0]), calls[1..]); }
  }

  lemma {:induction false} SilentExactly(s: State, inputs: seq<Input>, fallbackId: string)
    requires s.hasStarted
    ensures TranslateAll(s, inputs, fallbackId) == [] <==> Silent(inputs)
    decreases |inputs|
  {
    if inputs != [] {
      SilentInput(s, inputs[0], fallbackId);
      if inputs[0].Parsed? {
        var c := inputs[0].chunk;
        CallsKeepStarted(AfterText(Begun(s, c), Content(c)), Calls(c));
      }
      SilentExactly(After(s, inputs[0]), inputs[1..], fallbackId);
      assert inputs == [inputs[0]] + inputs[1..];
    }
  }

  lemma ClosedOnlyByNothing(events: seq<Event>)
    ensures ReadAll(Closed, events) == Closed <==> events == []
  {
    if events != [] { RefusedStays(events[1..]); }
  }

  // ----- exactly when -----

  /** The first `[DONE]` is at `k`; before it some chunk parses and all is in order, after it
      comes nothing that would put anything out. */
  ghost predicate ProperAt(inputs: seq<Input>, k: nat) {
    && k < |inputs| && inputs[k] == Done && Done !in inputs[..k]
    && (exists j :: 0 <= j < k && inputs[j].Parsed?)
    && Orderly({}, inputs[..k]) && Silent(inputs[k + 1..])
  }

  lemma {:induction false} FirstDone(inputs: seq<Input>) returns (k: nat)
    requires Done in inputs
    ensures k < |inputs| && inputs[k] == Done && Done !in inputs[..k]
  {
    if inputs[0] == Done {
      k := 0;
    } else {
      k := FirstDone(inputs[1..]);
      assert inputs[..k + 1] == [inputs[0]] + inputs[1..][..k];
      k := k + 1;
    }
  }

  /** For every event sequence: the output is a well-formed Anthropic message exactly when the
      input is proper at some position. */
  lemma WellFormedExactly(inputs: seq<Input>, fallbackId: string)
    ensures WellFormed(TranslateAll(INITIAL, inputs, fallbackId)) <==> exists k :: ProperAt(inputs, k)
  {
    if Done in inputs {
      var k := FirstDone(inputs);
      EndedExactly(inputs, k, fallbackId);
      forall j | ProperAt(inputs, j) ensures j == k { OneFirstDone(inputs, j, k); }
    } else {
      BodyRead(INITIAL, inputs, fallbackId);
      assert OpenBlocks(INITIAL) == map[];
      forall j ensures !ProperAt(inputs, j) {}
    }
  }

  lemma OneFirstDone(inputs: seq<Input>, j: nat, k: nat)
    requires j < |inputs| && inputs[j] == Done && Done !in inputs[..j]
    requires k < |inputs| && inputs[k] == Done && Done !in inputs[..k]
    ensures j == k
  {
  }

  lemma EndedExactly(inputs: seq<Input>, k: nat, fallbackId: string)
    requires k < |inputs| && inputs[k] == Done && Done !in inputs[..k]
    ensures WellFormed(TranslateAll(INITIAL, inputs, fallbackId)) <==> ProperAt(inputs, k)
  {
    var body, rest := inputs[..k], inputs[k + 1..];
    var s := AfterAll(INITIAL, body);
    var end, tail := OnDone(s), TranslateAll(s, rest, fallbackId);
    SplitAtDone(inputs, k, fallbackId);
    BodyRead(INITIAL, body, fallbackId);
    ReadAppend(Fresh, TranslateAll(INITIAL, body, fallbackId), end + tail);
    if Orderly({}, body) {
      ReadAppend(ReaderOf(s), end, tail);
      DoneRead(s);
      ClosedOnlyByNothing(tail);
      RefusedStays(tail);
      if s.hasStarted { SilentExactly(s, rest, fallbackId); }
    } else {
      RefusedStays(end + tail);
    }
    assert (exists j :: 0 <= j < k && inputs[j].Parsed?) <==> exists j :: 0 <= j < |body| && body[j].Parsed? by {
      assert forall j :: 0 <= j < k ==> body[j] == inputs[j];
    }
  }

  lemma SplitAtDone(inputs: seq<Input>, k: nat, fallbackId: string)
    requires k < |inputs| && inputs[k] == Done
    ensures var s := AfterAll(INITIAL, inputs[..k]);
      TranslateAll(INITIAL, inputs, fallbackId)
      == TranslateAll(INITIAL, inputs[..k], fallbackId) + (OnDone(s) + TranslateAll(s, inputs[k + 1..], fallbackId))
  {
    assert inputs == inputs[..k] + inputs[k..];
    AllAppend(INITIAL, inputs[..k], inputs[k..], fallbackId);
    assert inputs[k..][0] == Done && inputs[k..][1..] == inputs[k + 1..];
  }

  /** The usual stream: one `[DONE]`, at the end, and no tool index -1, which would be the
      text's.  It is well formed exactly when some chunk parses and every index a call carries is announced
      once, before its arguments. */
  lemma UsualStreamExactly(body: seq<Input>, fallbackId: string)
    requires Done !in body && Indexable(CallsOf(body))
    requires forall k :: 0 <= k < |CallsOf(body)| ==> OwnIndex(CallsOf(body)[k]) != -1
    ensures WellFormed(TranslateAll(INITIAL, body + [Done], fallbackId)) <==>
              (exists k :: 0 <= k < |body| && body[k].Parsed?) && OwnDisciplined({}, CallsOf(body))
  {
    var inputs, calls := body + [Done], CallsOf(body);
    assert inputs[..|body|] == body && inputs[|body| + 1..] == [];
    forall k | 0 <= k < |calls| ensures ToolIndex(calls[k]) != TEXT_INDEX { OneBlockUp(calls[k]); }
    EndedExactly(inputs, |body|, fallbackId);
    OrderlyIsDisciplined({}, body);
    DisciplineByIndex({}, {}, calls);
    assert forall j :: 0 <= j < |body| ==> inputs[j] == body[j];
  }

  function CallChunk(call: ToolCall): Input {
    Parsed(Chunk(None, None, None, Some(Choice(Some(Delta(None, Some([call]))), None))))
  }

  lemma TwoCalls(a: ToolCall, b: ToolCall, fallbackId: string)
    requires Indexable([a, b]) && OwnIndex(a) != -1 && OwnIndex(b) != -1
    ensures WellFormed(TranslateAll(INITIAL, [CallChunk(a), CallChunk(b), Done], fallbackId)) <==>
        OwnDisciplined({}, [a, b])
  {
    var last, body := [CallChunk(b)], [CallChunk(a), CallChunk(b)];
    assert last[1..] == [] && CallsOf(last) == [b] + CallsOf([]) == [b];
    assert body[1..] == last && CallsOf(body) == [a] + CallsOf(last) == [a, b];
    UsualStreamExactly(body, fallbackId);
    assert body + [Done] == [CallChunk(a), CallChunk(b), Done];
    assert body[0].Parsed?;
  }

  const EARLY := ToolCall(Some(0), None, None, Some("{}"))
  const ANNOUNCEMENT := ToolCall(Some(0), Some("id"), Some("f"), None)

  /** Arguments before their announcement are put out in no open block; after it they are fine. */
  lemma EarlyArgumentsFail(fallbackId: string)
    ensures !WellFormed(TranslateAll(INITIAL, [CallChunk(EARLY), CallChunk(ANNOUNCEMENT), Done], fallbackId))
    ensures WellFormed(TranslateAll(INITIAL, [CallChunk(ANNOUNCEMENT), CallChunk(EARLY), Done], fallbackId))
  {
    assert [EARLY, ANNOUNCEMENT][0] == EARLY && [ANNOUNCEMENT, EARLY][1..] == [EARLY] && [EARLY][1..] == [];
    assert !OwnDisciplined({}, [EARLY, ANNOUNCEMENT]);
    assert OwnDisciplined({0}, [EARLY]) && OwnDisciplined({}, [ANNOUNCEMENT, EARLY]);
    TwoCalls(EARLY, ANNOUNCEMENT, fallbackId);
    TwoCalls(ANNOUNCEMENT, EARLY, fallbackId);
  }

  // ----- one block at a time -----

  predicate AtMostOne(r: Reader) {
    r.Inside? ==> |r.open| <= 1
  }

  /** At no point of the output is more than one block open. */
  predicate OneAtATime(r: Reader, events: seq<Event>)
    decreases |events|
  {
    AtMostOne(r) && (events == [] || OneAtATime(Read(r, events[0]), events[1..]))
  }

  lemma {:induction false} OneAppend(r: Reader, a: seq<Event>, b: seq<Event>)
    ensures OneAtATime(r, a + b) <==> OneAtATime(r, a) && OneAtATime(ReadAll(r, a), b)
    decreases |a|
  {
    if a == [] {
      assert a + b == b;
    } else {
      assert (a + b)[1..] == a[1..] + b;
      OneAppend(Read(r, a[0]), a[1..], b);
    }
  }

  lemma OneEvent(r: Reader, e: Event)
    ensures ReadAll(r, [e]) == Read(r, e)
    ensures OneAtATime(r, [e]) <==> AtMostOne(r) && AtMostOne(Read(r, e))
  {
    assert [e][1..] == [];
  }

  lemma OpenCount(s: State)
    requires Sane(s)
    ensures |OpenBlocks(s)| == |s.tools| + (if s.textOpen then 1 else 0)
  {
    var keys := s.tools + (if s.textOpen then {TEXT_INDEX} else {});
    assert OpenBlocks(s).Keys == keys;
  }

  lemma OneTool(tools: set<int>, i: int)
    requires i !in tools
    ensures |tools + {i}| <= 1 <==> tools == {}
  {
  }

  lemma TextOne(s: State, content: string)
    requires Sane(s) && s.hasStarted && AtMostOne(ReaderOf(s)) && TextFits(s.tools, content)
    ensures OneAtATime(ReaderOf(s), TextEvents(s, content)) <==> content == "" || s.tools == {}
    ensures content == "" || s.tools == {} ==> AtMostOne(ReaderOf(AfterText(s, content)))
  {
    if content != "" {
      var r, t := ReaderOf(s), ReaderOf(AfterText(s, content));
      var start, delta := BlockStart(TEXT_INDEX, TextBlock), BlockDelta(TEXT_INDEX, TextDelta(content));
      OpenCount(s);
      OpenCount(AfterText(s, content));
      assert OpenBlocks(AfterText(s, content)) == OpenBlocks(s)[TEXT_INDEX := Text];
      OneEvent(r, start);
      OneEvent(t, delta);
      assert Read(t, delta) == t && (s.textOpen ==> r == t) && (!s.textOpen ==> Read(r, start) == t);
      OneAppend(r, [start], [delta]);
      if s.textOpen { assert TextEvents(s, content) == [delta]; }
    }
  }

  lemma AnnounceOne(s: State, call: ToolCall)
    requires Sane(s) && s.hasStarted && AtMostOne(ReaderOf(s)) && Announces(call) && ToolIndex(call) !in s.tools
    ensures var stop := if s.textOpen then [BlockStop(TEXT_INDEX)] else [];
      OneAtATime(ReaderOf(s), stop + [BlockStart(ToolIndex(call), ToolBlock(call.id.value, call.name.value))]) <==>
          s.tools == {}
  {
    var stop := if s.textOpen then [BlockStop(TEXT_INDEX)] else [];
    var start := BlockStart(ToolIndex(call), ToolBlock(call.id.value, call.name.value));
    var left := Inside(ToolBlocks(s.tools));
    ToolsLeft(s);
    OpenCount(s);
    OneAppend(ReaderOf(s), stop, [start]);
    OneEvent(ReaderOf(s), BlockStop(TEXT_INDEX));
    OneEvent(left, start);
    ToolStarts(s.tools, ToolIndex(call), call);
  }

  lemma ToolStarts(tools: set<int>, i: int, call: ToolCall)
    requires i !in tools && Announces(call)
    ensures AtMostOne(Inside(ToolBlocks(tools))) <==> |tools| <= 1
    ensures AtMostOne(Read(Inside(ToolBlocks(tools)), BlockStart(i, ToolBlock(call.id.value, call.name.value)))) <==>
        tools == {}
  {
    assert ToolBlocks(tools).Keys == tools;
    assert ToolBlocks(tools)[i := Tool].Keys == tools + {i};
    OneTool(tools, i);
  }

  lemma CallOne(s: State, call: ToolCall)
    requires Sane(s) && s.hasStarted && AtMostOne(ReaderOf(s)) && CallInOrder(s.tools, call)
    ensures OneAtATime(ReaderOf(s), CallEvents(s, call)) <==> !Announces(call) || s.tools == {}
  {
    var i := ToolIndex(call);
    var head := if Announces(call) then
                  (if s.textOpen then [BlockStop(TEXT_INDEX)] else [])
                      + [BlockStart(i, ToolBlock(call.id.value, call.name.value))]
                else [];
    var delta := if Arguments(call) != "" then [BlockDelta(i, InputJson(Arguments(call)))] else [];
    assert CallEvents(s, call) == head + delta;
    OneAppend(ReaderOf(s), head, delta);
    if Announces(call) {
      AnnounceOne(s, call);
      AnnounceRead(s, call);
      AfterAnnounce(s, call);
    }
    CallRead(s, call);
    DeltaOne(AfterCall(s, call), call);
  }

  lemma AfterAnnounce(s: State, call: ToolCall)
    requires Sane(s) && s.hasStarted && Announces(call) && ToolIndex(call) !in s.tools
    ensures Sane(AfterCall(s, call)) && (AtMostOne(ReaderOf(AfterCall(s, call))) <==> s.tools == {})
  {
    OpenCount(AfterCall(s, call));
    OneTool(s.tools, ToolIndex(call));
  }

  lemma DeltaOne(s: State, call: ToolCall)
    requires Sane(s) && s.hasStarted && (Arguments(call) != "" ==> ToolIndex(call) in s.tools)
    ensures var delta := if Arguments(call) != "" then [BlockDelta(ToolIndex(call), InputJson(Arguments(call)))]
        else [];
      OneAtATime(ReaderOf(s), delta) <==> AtMostOne(ReaderOf(s))
  {
    if Arguments(call) != "" {
      var d := BlockDelta(ToolIndex(call), InputJson(Arguments(call)));
      assert Read(ReaderOf(s), d) == ReaderOf(s);
      assert [d][1..] == [];
    }
  }

  /** No second announcement, and none at all once `used`. */
  predicate SoloCalls(used: bool, calls: seq<ToolCall>)
    decreases |calls|
  {
    calls == [] || ((Announces(calls[0]) ==> !used) && SoloCalls(used || Announces(calls[0]), calls[1..]))
  }

  lemma {:induction false} CallsOne(s: State, calls: seq<ToolCall>)
    requires Sane(s) && s.hasStarted && AtMostOne(ReaderOf(s)) && Disciplined(s.tools, calls)
    ensures OneAtATime(ReaderOf(s), CallsEvents(s, calls)) <==> SoloCalls(s.tools != {}, calls)
    ensures SoloCalls(s.tools != {}, calls) ==> AtMostOne(ReaderOf(AfterCalls(s, calls)))
    decreases |calls|
  {
    if calls != [] {
      var t := AfterCall(s, calls[0]);
      CallOne(s, calls[0]);
      CallRead(s, calls[0]);
      OneAppend(ReaderOf(s), CallEvents(s, calls[0]), CallsEvents(t, calls[1..]));
      if Announces(calls[0]) { AfterAnnounce(s, calls[0]); }
      if Announces(calls[0]) ==> s.tools == {} { CallsOne(t, calls[1..]); }
    }
  }

  predicate SoloChunk(used: bool, c: Chunk) {
    (Content(c) != "" ==> !used) && SoloCalls(used, Calls(c))
  }

  /** Once a tool is announced, no more text and no other tool. */
  predicate Solo(tools: set<int>, body: seq<Input>)
    decreases |body|
  {
    body == []
    || if body[0].Parsed?
        then SoloChunk(tools != {}, body[0].chunk) && Solo(Announced(tools, Calls(body[0].chunk)), body[1..])
       else Solo(tools, body[1..])
  }

  /** The text and the calls of a chunk, once the message has begun. */
  lemma PartsOne(s: State, content: string, calls: seq<ToolCall>)
    requires Sane(s) && s.hasStarted && AtMostOne(ReaderOf(s)) && TextFits(s.tools, content)
        && Disciplined(s.tools, calls)
    ensures var solo := (content != "" ==> s.tools == {}) && SoloCalls(s.tools != {}, calls);
      var t := AfterText(s, content);
      && (OneAtATime(ReaderOf(s), TextEvents(s, content) + CallsEvents(t, calls)) <==> solo)
      && (solo ==> AtMostOne(ReaderOf(AfterCalls(t, calls))))
  {
    var t := AfterText(s, content);
    OneAppend(ReaderOf(s), TextEvents(s, content), CallsEvents(t, calls));
    TextRead(s, content);
    TextOne(s, content);
    if content == "" || s.tools == {} { CallsOne(t, calls); }
  }

  /** A finish reason opens and closes nothing. */
  lemma FinishKeepsReader(s: State, c: Chunk)
    ensures ReaderOf(AfterChunk(s, c)) == ReaderOf(AfterCalls(AfterText(Begun(s, c), Content(c)), Calls(c)))
  {
    var t := AfterCalls(AfterText(Begun(s, c), Content(c)), Calls(c));
    assert OpenBlocks(AfterChunk(s, c)) == OpenBlocks(t);
  }

  lemma ChunkInParts(s: State, c: Chunk, fallbackId: string)
    ensures var start := if s.hasStarted then [] else [StartEvent(Noted(s, c), c, fallbackId)];
      var begun := Begun(s, c);
      ChunkEvents(s, c, fallbackId)
          == start + (TextEvents(begun, Content(c)) + CallsEvents(AfterText(begun, Content(c)), Calls(c)))
  {
  }

  lemma ChunkOne(s: State, c: Chunk, fallbackId: string)
    requires Sane(s) && AtMostOne(ReaderOf(s)) && ChunkFits(s.tools, c)
    ensures OneAtATime(ReaderOf(s), ChunkEvents(s, c, fallbackId)) <==> SoloChunk(s.tools != {}, c)
    ensures SoloChunk(s.tools != {}, c) ==> AtMostOne(ReaderOf(AfterChunk(s, c)))
  {
    var begun, content, calls := Begun(s, c), Content(c), Calls(c);
    var start := if s.hasStarted then [] else [StartEvent(Noted(s, c), c, fallbackId)];
    var parts := TextEvents(begun, content) + CallsEvents(AfterText(begun, content), calls);
    BeginRead(s, c, fallbackId);
    BeginOne(s, c, fallbackId);
    ChunkInParts(s, c, fallbackId);
    OneAppend(ReaderOf(s), start, parts);
    PartsOne(begun, content, calls);
    FinishKeepsReader(s, c);
  }

  lemma BeginOne(s: State, c: Chunk, fallbackId: string)
    requires Sane(s) && AtMostOne(ReaderOf(s))
    ensures OneAtATime(ReaderOf(s), if s.hasStarted then [] else [StartEvent(Noted(s, c), c, fallbackId)])
    ensures AtMostOne(ReaderOf(Begun(s, c)))
  {
    OpenCount(s);
    OpenCount(Begun(s, c));
  }

  lemma {:induction false} BodyOne(s: State, body: seq<Input>, fallbackId: string)
    requires Sane(s) && Done !in body && AtMostOne(ReaderOf(s)) && Orderly(s.tools, body)
    ensures OneAtATime(ReaderOf(s), TranslateAll(s, body, fallbackId)) <==> Solo(s.tools, body)
    ensures Solo(s.tools, body) ==> AtMostOne(ReaderOf(AfterAll(s, body)))
    decreases |body|
  {
    if body != [] {
      var t := After(s, body[0]);
      var rest := TranslateAll(t, body[1..], fallbackId);
      OneAppend(ReaderOf(s), Translate(s, body[0], fallbackId), rest);
      if body[0].Parsed? {
        ChunkRead(s, body[0].chunk, fallbackId);
        ChunkOne(s, body[0].chunk, fallbackId);
        if SoloChunk(s.tools != {}, body[0].chunk) { BodyOne(t, body[1..], fallbackId); }
      } else {
        BodyOne(t, body[1..], fallbackId);
      }
    }
  }

  lemma {:induction false} StopsOne(open: map<int, Kind>, indices: seq<int>)
    requires |open| <= 1
    requires forall i, j :: 0 <= i < j < |indices| ==> indices[i] != indices[j]
    requires forall i :: 0 <= i < |indices| ==> indices[i] in open
    ensures OneAtATime(Inside(open), Stops(indices))
    decreases |indices|
  {
    if indices != [] {
      assert Stops(indices)[1..] == Stops(indices[1..]);
      assert (open - {indices[0]}).Keys == open.Keys - {indices[0]};
      StopsOne(open - {indices[0]}, indices[1..]);
    }
  }

  lemma VerdictOne(s: State)
    ensures OneAtATime(Inside(map[]), Verdict(s))
  {
    var v := Verdict(s);
    assert !Read(Inside(map[]), v[0]).Inside?;
    if IsErrorFinish(s.finishReason) {
      assert v[1..] == [];
    } else {
      assert v[1..] == [MessageStop] && v[1..][1..] == [];
    }
  }

  lemma DoneOne(s: State)
    requires Sane(s) && s.hasStarted && AtMostOne(ReaderOf(s))
    ensures OneAtATime(ReaderOf(s), OnDone(s))
  {
    var head := if s.textOpen then [BlockStop(TEXT_INDEX)] else [];
    var order := Ascending(s.tools);
    ToolsLeft(s);
    OpenCount(s);
    ClosingRead(s);
    AscendingElements(s.tools);
    assert ToolBlocks(s.tools).Keys == s.tools;
    assert ReadAll(ReaderOf(s), head) == Inside(ToolBlocks(s.tools));
    StopsOne(ToolBlocks(s.tools), order);
    OneAppend(ReaderOf(s), head, Stops(order));
    VerdictOne(s);
    OneAppend(ReaderOf(s), head + Stops(order), Verdict(s));
  }

  /** A well-formed output never has two blocks open if and only if, before the end, no text
      and no other tool comes once a tool is announced. */
  lemma OneBlockAtATimeExactly(inputs: seq<Input>, k: nat, fallbackId: string)
    requires ProperAt(inputs, k)
    ensures OneAtATime(Fresh, TranslateAll(INITIAL, inputs, fallbackId)) <==> Solo({}, inputs[..k])
  {
    var body, rest := inputs[..k], inputs[k + 1..];
    var s := AfterAll(INITIAL, body);
    var end, tail := OnDone(s), TranslateAll(s, rest, fallbackId);
    SplitAtDone(inputs, k, fallbackId);
    BodyRead(INITIAL, body, fallbackId);
    BodyOne(INITIAL, body, fallbackId);
    assert forall j :: 0 <= j < k ==> body[j] == inputs[j];
    SilentExactly(s, rest, fallbackId);
    assert end + tail == end;
    OneAppend(Fresh, TranslateAll(INITIAL, body, fallbackId), end);
    if Solo({}, body) { DoneOne(s); }
  }

  // ----- what the end of the message reports -----

  /** The last value reported that is not zero, or zero. */
  function LastNonZero(xs: seq<int>): int {
    if xs == [] then 0 else if xs[|xs| - 1] != 0 then xs[|xs| - 1] else LastNonZero(xs[..|xs| - 1])
  }

  function LastSome(xs: seq<Option<string>>): Option<string> {
    if xs == [] then None else if xs[|xs| - 1].Some? then xs[|xs| - 1] else LastSome(xs[..|xs| - 1])
  }

  function PromptTokens(i: Input): int {
    if i.Parsed? && i.chunk.usage.Some? then i.chunk.usage.value.promptTokens else 0
  }

  function CompletionTokens(i: Input): int {
    if i.Parsed? && i.chunk.usage.Some? then i.chunk.usage.value.completionTokens else 0
  }

  function Finish(i: Input): Option<string> {
    if i.Parsed? && i.chunk.choice.Some? then i.chunk.choice.value.finishReason else None
  }

  function Map<T>(f: Input -> T, inputs: seq<Input>): seq<T> {
    seq(|inputs|, i requires 0 <= i < |inputs| => f(inputs[i]))
  }

  lemma {:induction false} AfterAllSnoc(s: State, inputs: seq<Input>)
    requires inputs != []
    ensures AfterAll(s, inputs) == After(AfterAll(s, inputs[..|inputs| - 1]), inputs[|inputs| - 1])
    decreases |inputs|
  {
    var n := |inputs| - 1;
    if n > 0 {
      AfterAllSnoc(After(s, inputs[0]), inputs[1..]);
      assert inputs[1..][..n - 1] == inputs[..n][1..];
    }
  }

  lemma {:induction false} CallsKeepReport(s: State, calls: seq<ToolCall>)
    ensures var t := AfterCalls(s, calls);
      t.inputTokens == s.inputTokens && t.outputTokens == s.outputTokens && t.finishReason == s.finishReason
    decreases |calls|
  {
    if calls != [] { CallsKeepReport(AfterCall(s, calls[0]), calls[1..]); }
  }

  /** Token counts and finish reason are the last ones any chunk reported. */
  lemma {:induction false} LastReportWins(inputs: seq<Input>)
    ensures var t := AfterAll(INITIAL, inputs);
      && t.inputTokens == LastNonZero(Map(PromptTokens, inputs))
      && t.outputTokens == LastNonZero(Map(CompletionTokens, inputs))
      && t.finishReason == LastSome(Map(Finish, inputs))
  {
    if inputs != [] {
      var n := |inputs| - 1;
      AfterAllSnoc(INITIAL, inputs);
      LastReportWins(inputs[..n]);
      assert Map(PromptTokens, inputs)[..n] == Map(PromptTokens, inputs[..n]);
      assert Map(CompletionTokens, inputs)[..n] == Map(CompletionTokens, inputs[..n]);
      assert Map(Finish, inputs)[..n] == Map(Finish, inputs[..n]);
      assert Map(PromptTokens, inputs)[n] == PromptTokens(inputs[n])
          && Map(CompletionTokens, inputs)[n] == CompletionTokens(inputs[n]);
      assert Map(Finish, inputs)[n] == Finish(inputs[n]);
      var s := AfterAll(INITIAL, inputs[..n]);
      if inputs[n].Parsed? {
        var c := inputs[n].chunk;
        CallsKeepReport(AfterText(Begun(s, c), Content(c)), Calls(c));
      }
    }
  }

  /** A message that does not end in an error reports them, under Anthropic's names. */
  lemma FinalReport(body: seq<Input>, fallbackId: string)
    requires !IsErrorFinish(LastSome(Map(Finish, body)))
    ensures var out := TranslateAll(INITIAL, body + [Done], fallbackId);
      |out| >= 2 && out[|out| - 2..] == [MessageDelta(MapFinishReason(LastSome(Map(Finish, body))),
                                                     LastNonZero(Map(PromptTokens, body)),
                                                         LastNonZero(Map(CompletionTokens, body))), MessageStop]
    ensures var reason, stop := LastSome(Map(Finish, body)), MapFinishReason(LastSome(Map(Finish, body)));
      && (stop == "max_tokens" <==> reason == Some("length"))
      && (stop == "tool_use" <==> reason == Some("tool_calls") || reason == Some("function_call"))
      && stop in {"max_tokens", "tool_use", "end_turn"}
  {
    var s := AfterAll(INITIAL, body);
    LastReportWins(body);
    AllAppend(INITIAL, body, [Done], fallbackId);
    assert TranslateAll(s, [Done], fallbackId) == OnDone(s);
    var out := TranslateAll(INITIAL, body, fallbackId) + OnDone(s);
    assert OnDone(s)[|OnDone(s)| - 2..] == Verdict(s);
    assert out[|out| - 2..] == OnDone(s)[|OnDone(s)| - 2..];
  }

  /** The error a finish reason names: its own type, or `api_error` for a bare `error`. */
  predicate NamesError(reason: Option<string>, kind: string) {
    reason == Some(kind + "_error") || (kind == "api" && reason == Some("error"))
  }

  lemma ErrorVerdict(s: State, kind: string)
    requires NamesError(s.finishReason, kind)
    ensures Verdict(s) == [ErrorEvent(kind + "_error")]
  {
    assert (kind + "_error")[|kind|..] == "_error";
    assert |"error"| < |"_error"| && "api" + "_error" == "api_error";
  }

  /** A message that does end in an error says which, and is not stopped. */
  lemma FinalError(body: seq<Input>, fallbackId: string, kind: string)
    requires NamesError(LastSome(Map(Finish, body)), kind)
    ensures var out := TranslateAll(INITIAL, body + [Done], fallbackId);
      out != [] && out[|out| - 1] == ErrorEvent(kind + "_error")
  {
    var s := AfterAll(INITIAL, body);
    LastReportWins(body);
    ErrorVerdict(s, kind);
    AllAppend(INITIAL, body, [Done], fallbackId);
    assert TranslateAll(s, [Done], fallbackId) == OnDone(s);
  }

  /** The message starts with the first chunk: its id, or the fallback; its model, or
      `unknown`; its prompt tokens, or 0. */
  lemma {:induction false} FirstChunkStarts(inputs: seq<Input>, k: nat, fallbackId: string)
    requires k < |inputs| && inputs[k].Parsed? && forall j :: 0 <= j < k ==> inputs[j].Unparseable?
    ensures var out, c := TranslateAll(INITIAL, inputs, fallbackId), inputs[k].chunk;
      && out != [] && out[0].MessageStart?
      && out[0].id == (if c.id == None || c.id == Some("") then fallbackId else c.id.value)
      && out[0].model == (if c.model == None || c.model == Some("") then "unknown" else c.model.value)
      && out[0].inputTokens == if c.usage.Some? then c.usage.value.promptTokens else 0
  {
    if k > 0 { FirstChunkStarts(inputs[1..], k - 1, fallbackId); }
  }

  // ----- the translator itself -----

  class StreamState {
    var id: Option<string>
    var model: Option<string>
    var inputTokens: int
    var outputTokens: int
    var hasStarted: bool
    var textOpen: bool
    var tools: set<int>
    var finishReason: Option<string>

    function View(): State
      reads this
    {
      State(id, model, inputTokens, outputTokens, hasStarted, textOpen, tools, finishReason)
    }

    constructor ()
      ensures View() == INITIAL
    {
      id, model, inputTokens, outputTokens := None, None, 0, 0;
      hasStarted, textOpen, tools, finishReason := false, false, {}, None;
    }

    /** `openai_to_anthropic_messages_stream`: one event in, Anthropic events out. */
    method Apply(input: Input, fallbackId: string) returns (out: seq<Event>)
      modifies this
      ensures out == Translate(old(View()), input, fallbackId)
      ensures View() == After(old(View()), input)
    {
      match input {
        case Done => out := Finish();
        case Unparseable => out := [];
        case Parsed(c) =>
          out := Begin(c, fallbackId);
          if c.choice.None? { return; }
          var text := AddText(Content(c));
          var calls := AddCalls(Calls(c));
          out := out + text + calls;
          if c.choice.value.finishReason.Some? { finishReason := c.choice.value.finishReason; }
      }
    }

    method Finish() returns (out: seq<Event>)
      ensures out == OnDone(View())
    {
      out := if textOpen then [BlockStop(TEXT_INDEX)] else [];
      var order := IterateAscending(tools);
      ghost var head := out;
      for k := 0 to |order|
        invariant out == head + Stops(order[..k])
      {
        out := out + [BlockStop(order[k])];
        assert Stops(order[..k + 1]) == Stops(order[..k]) + [BlockStop(order[k])];
      }
      assert order[..|order|] == order;
      out := out + Verdict(View());
    }

    method Begin(c: Chunk, fallbackId: string) returns (out: seq<Event>)
      modifies this
      ensures View() == Begun(old(View()), c)
      ensures out == if old(hasStarted) then [] else [StartEvent(Noted(old(View()), c), c, fallbackId)]
    {
      if c.id.Some? { id := c.id; }
      if c.model.Some? { model := c.model; }
      if c.usage.Some? {
        if c.usage.value.promptTokens != 0 { inputTokens := c.usage.value.promptTokens; }
        if c.usage.value.completionTokens != 0 { outputTokens := c.usage.value.completionTokens; }
      }
      out := [];
      if !hasStarted {
        out := [StartEvent(View(), c, fallbackId)];
        hasStarted := true;
      }
    }

    method AddText(content: string) returns (out: seq<Event>)
      modifies this`textOpen
      ensures out == TextEvents(old(View()), content) && View() == AfterText(old(View()), content)
    {
      out := [];
      if content != "" {
        if !textOpen {
          out := [BlockStart(TEXT_INDEX, TextBlock)];
          textOpen := true;
        }
        out := out + [BlockDelta(TEXT_INDEX, TextDelta(content))];
      }
    }

    method AddCalls(calls: seq<ToolCall>) returns (out: seq<Event>)
      modifies this`textOpen, this`tools
      ensures out == CallsEvents(old(View()), calls) && View() == AfterCalls(old(View()), calls)
    {
      out := [];
      for k := 0 to |calls|
        invariant out + CallsEvents(View(), calls[k..]) == CallsEvents(old(View()), calls)
        invariant AfterCalls(View(), calls[k..]) == AfterCalls(old(View()), calls)
      {
        assert calls[k..][1..] == calls[k + 1..];
        var events := AddCall(calls[k]);
        Assoc(out, events, CallsEvents(View(), calls[k + 1..]));
        out := out + events;
      }
      assert calls[|calls|..] == [];
    }

    method AddCall(call: ToolCall) returns (out: seq<Event>)
      modifies this`textOpen, this`tools
      ensures out == CallEvents(old(View()), call) && View() == AfterCall(old(View()), call)
    {
      out := [];
      var i := ToolIndex(call);
      if Announces(call) {
        if textOpen && i !in tools {
          out := out + [BlockStop(TEXT_INDEX)];
          textOpen := false;
        }
        out := out + [BlockStart(i, ToolBlock(call.id.value, call.name.value))];
        tools := tools + {i};
      }
      if Arguments(call) != "" { out := out + [BlockDelta(i, InputJson(Arguments(call)))]; }
    }
  }

  /** Iterating a `BTreeSet<i64>`. */
  method IterateAscending(s: set<int>) returns (order: seq<int>)
    ensures order == Ascending(s)
  {
    LessIsStrictOrder();
    var lt := (a: int, b: int) => a < b;
    var rest := s;
    order := [];
    while rest != {}
      invariant rest <= s && Sorted(lt, order) && SameElements(order, s - rest)
    {
      ghost var some := Pick(rest);
      var i :| i in rest;
      order := Ordering.Insert(lt, i, order);
      rest := rest - {i};
    }
    ArrangeUnique(lt, order, s);
  }
}
