/**
 Which conversations survive the trip from OpenAI to Anthropic and back
 (`src/middleware/request_transform.rs`): for typed conversations, the exact condition.
 */
module RoundTrip {
  import opened Basics
  import opened Documents
  import opened Messages
  import opened Sequences

  // ----- conversations -----

  datatype Part =
    | Text(text: string)
    | Image(url: string)
    | FileUrl(url: string, mime: Option<string>)    // `None` is a JSON null
    | FileData(data: string, mime: Option<string>)

  datatype Call = Call(id: string, name: string, arguments: string)

  datatype Turn =
    | System(developer: bool, text: string)
    | User(text: string)
    | Parts(parts: seq<Part>)
    | Assistant(content: Option<string>, calls: seq<Call>)  // `None` is a JSON null
    | Tool(id: string, text: string)

  function PartWire(p: Part): Value {
    match p
    case Text(s) => Obj(map["type" := Str("text"), "text" := Str(s)])
    case Image(url) => Obj(map["type" := Str("image_url"), "image_url" := Obj(map["url" := Str(url)])])
    case FileUrl(url, mime) =>
      Obj(map["type" := Str("file"), "file" := Obj(map["file_url" := Str(url), "mime_type" := OptStr(mime)])])
    case FileData(data, mime) =>
      Obj(map["type" := Str("file"), "file" := Obj(map["file_data" := Str(data), "mime_type" := OptStr(mime)])])
  }

  function CallWire(c: Call): Value {
    Obj(map["id" := Str(c.id), "type" := Str("function"),
            "function" := Obj(map["name" := Str(c.name), "arguments" := Str(c.arguments)])])
  }

  function Wires<T>(xs: seq<T>, wire: T -> Value): (r: seq<Value>)
    ensures |r| == |xs| && forall i :: 0 <= i < |xs| ==> r[i] == wire(xs[i])
  {
    if xs == [] then [] else [wire(xs[0])] + Wires(xs[1..], wire)
  }

  /** The OpenAI message of a turn. */
  function Wire(t: Turn): Value {
    match t
    case System(developer, text) =>
      Obj(map["role" := Str(if developer then "developer" else "system"), "content" := Str(text)])
    case User(text) => Obj(map["role" := Str("user"), "content" := Str(text)])
    case Parts(parts) => Obj(map["role" := Str("user"), "content" := Arr(Wires(parts, PartWire))])
    case Assistant(content, calls) =>
      if calls == [] then Obj(map["role" := Str("assistant"), "content" := OptStr(content)])
      else Obj(map["role" := Str("assistant"), "tool_calls" := Arr(Wires(calls, CallWire)),
          "content" := OptStr(content)])
    case Tool(id, text) => Obj(map["role" := Str("tool"), "tool_call_id" := Str(id), "content" := Str(text)])
  }

  /** The Anthropic request of a conversation, as far as the messages go. */
  function AnthropicParams(system: seq<Value>, messages: seq<Value>): Value {
    Obj(map["system" := Arr(system), "messages" := Arr(messages)])
  }

  /** There and back again, unless the request is rejected on the way. */
  function Trip(msgs: seq<Value>, parse: Parse, render: Render): Option<seq<Value>> {
    match AllToAnthropic(msgs, parse)
    case Err(_) => None
    case Ok(out) =>
      var params := AnthropicParams(Each(msgs, SystemEntries), out);
      Some(SystemPart(params) + Each(MessagesIn(params), Translator(render)))
  }

  /** The trip gives the original messages, in order. */
  predicate RoundTrips(conv: seq<Turn>, parse: Parse, render: Render) {
    Trip(Wires(conv, Wire), parse, render) == Some(Wires(conv, Wire))
  }

  // ----- the condition -----

  /** An image URL that comes back as it went: any plain URL, and a base64 `data:` URL with
      one media type, which is not PDF, and a payload. */
  ghost predicate NormalUrl(url: string) {
    url != "" && ("data:" <= url ==> exists mime, data :: NormalData(url, mime, data))
  }

  predicate NormalData(url: string, mime: string, data: string) {
    CleanData(url, mime, data) && mime != PDF_MIME
  }

  predicate CleanData(url: string, mime: string, data: string) {
    && url == "data:" + mime + ";base64," + data
    && ';' !in mime && ':' !in mime
    && ';' !in data && ',' !in data && data != ""
  }

  /** A file by URL loses its media type on the way, a file by value gains one. */
  ghost predicate NormalPart(p: Part) {
    match p
    case Text(_) => true
    case Image(url) => NormalUrl(url)
    case FileUrl(url, mime) => url != "" && mime == None
    case FileData(data, mime) => data != "" && mime.Some?
  }

  /** Arguments as the serializer itself would write them. */
  predicate NormalCall(c: Call, parse: Parse, render: Render) {
    c.arguments != "" && parse(c.arguments).Ok? && render(parse(c.arguments).value) == c.arguments
  }

  ghost predicate NormalTurn(t: Turn, parse: Parse, render: Render) {
    match t
    case Parts(parts) =>
      && parts != [] && !(|parts| == 1 && parts[0].Text?)
      && forall i :: 0 <= i < |parts| ==> NormalPart(parts[i])
    case Assistant(content, calls) =>
      && content.Some? && (content.value != "" || calls != [])
      && forall i :: 0 <= i < |calls| ==> NormalCall(calls[i], parse, render)
    case _ => true
  }

  /** At most one system message, which leads, is not a developer message and is not empty;
      every other turn is normal. */
  ghost predicate InFragment(conv: seq<Turn>, parse: Parse, render: Render) {
    && (forall i :: 0 <= i < |conv| ==> NormalTurn(conv[i], parse, render))
    && (forall i :: 0 <= i < |conv| && conv[i].System? ==> i == 0 && !conv[i].developer && conv[i].text != "")
  }

  // ----- sequences of pieces -----

  lemma {:induction false} EachAppend<T, U>(a: seq<T>, b: seq<T>, f: T -> seq<U>)
    ensures Each(a + b, f) == Each(a, f) + Each(b, f)
  {
    if a == [] {
      assert a + b == b;
    } else {
      assert (a + b)[0] == a[0] && (a + b)[1..] == a[1..] + b;
      EachAppend(a[1..], b, f);
    }
  }

  lemma EachOne<T, U>(x: T, f: T -> seq<U>)
    ensures Each([x], f) == f(x)
  {
    assert [x][1..] == [];
    assert f(x) + [] == f(x);
  }

  /** Pieces of at most one element make up the whole exactly when every piece is its element. */
  lemma {:induction false} PiecesExactly<T>(xs: seq<T>, piece: T -> seq<Value>, wire: T -> Value)
    requires forall i :: 0 <= i < |xs| ==> |piece(xs[i])| <= 1
    ensures |Each(xs, piece)| <= |xs|
    ensures Each(xs, piece) == Wires(xs, wire) <==> forall i :: 0 <= i < |xs| ==> piece(xs[i]) == [wire(xs[i])]
  {
    if xs != [] {
      var rest := xs[1..];
      PiecesExactly(rest, piece, wire);
      var p, ps := piece(xs[0]), Each(rest, piece);
      if p + ps == [wire(xs[0])] + Wires(rest, wire) {
        Aligned(p, ps, wire(xs[0]), Wires(rest, wire));
        forall i | 0 <= i < |xs| ensures piece(xs[i]) == [wire(xs[i])] {
          if i > 0 { assert rest[i - 1] == xs[i]; }
        }
      }
      if forall i :: 0 <= i < |xs| ==> piece(xs[i]) == [wire(xs[i])] {
        forall i | 0 <= i < |rest| ensures piece(rest[i]) == [wire(rest[i])] { assert rest[i] == xs[i + 1]; }
      }
    }
  }

  lemma Aligned(p: seq<Value>, ps: seq<Value>, w: Value, ws: seq<Value>)
    requires |p| <= 1 && |ps| <= |ws| && p + ps == [w] + ws
    ensures p == [w] && ps == ws
  {
    assert |p + ps| == |p| + |ps| && |[w] + ws| == 1 + |ws|;
    assert (p + ps)[0] == w;
    assert (p + ps)[1..] == ps && ([w] + ws)[1..] == ws;
  }

  // ----- images -----

  lemma {:induction false} SplitNone(s: string, c: char)
    requires c !in s
    ensures Split(s, c) == [s]
  {
    if s != "" {
      SplitNone(s[1..], c);
      assert [s[0]] + s[1..] == s;
    }
  }

  lemma {:induction false} SplitOnce(a: string, c: char, b: string)
    requires c !in a && c !in b
    ensures Split(a + [c] + b, c) == [a, b]
  {
    var s := a + [c] + b;
    if a == "" {
      assert s[0] == c && s[1..] == b;
      SplitNone(b, c);
    } else {
      assert s[0] == a[0] && s[1..] == a[1..] + [c] + b;
      SplitOnce(a[1..], c, b);
      assert [a[0]] + a[1..] == a;
    }
  }

  lemma NormalSplits(url: string, mime: string, data: string)
    requires CleanData(url, mime, data)
    ensures Split(url, ';') == ["data:" + mime, "base64," + data]
    ensures Split("base64," + data, ',') == ["base64", data]
    ensures Split("data:" + mime, ':') == ["data", mime]
  {
    var head, tail := "data:" + mime, "base64," + data;
    assert url == head + [';'] + tail;
    SplitOnce(head, ';', tail);
    assert tail == "base64" + [','] + data;
    SplitOnce("base64", ',', data);
    assert head == "data" + [':'] + mime;
    SplitOnce("data", ':', mime);
  }

  function PartPiece(p: Part): seq<Value> {
    Each(ItemBlocks(PartWire(p)), PartsOf)
  }

  lemma WireOfImage(url: string)
    ensures ItemBlocks(ImagePart(url)) == ImageBlocks(ImagePart(url))
    ensures StrOrEmpty(GetIn(Get(ImagePart(url), "image_url"), "url")) == url
    ensures Ephemeral(ImagePart(url)) == None
  {
    var w := ImagePart(url);
    assert Get(w, "image_url") == Some(Obj(map["url" := Str(url)]));
    assert TypeOf(w) == Some("image_url");
  }

  lemma ImagePartInjective(a: string, b: string)
    requires ImagePart(a) == ImagePart(b)
    ensures a == b
  {
    WireOfImage(a);
    WireOfImage(b);
  }

  lemma ImageBlockBack(source: Value)
    requires source.Object?
    ensures PartsOf(Obj(Sourced("image", source))) == ImageParts(source)
    ensures PartsOf(Obj(Sourced("document", source))) == DocumentParts(source)
  {
    var i, d := Obj(Sourced("image", source)), Obj(Sourced("document", source));
    assert TypeOf(i) == Some("image") && Get(i, "source") == Some(source);
    assert TypeOf(d) == Some("document") && Get(d, "source") == Some(source);
  }

  lemma DataSourceBack(mime: string, data: string)
    ensures ImageParts(DataSource("base64", Str(mime), Str(data))) == [ImagePart("data:" + mime + ";base64," + data)]
  {
    var source := DataSource("base64", Str(mime), Str(data));
    assert TypeOf(source) == Some("base64");
    assert Get(source, "media_type") == Some(Str(mime)) && Get(source, "data") == Some(Str(data));
  }

  lemma DocumentIsNoImage(mime: Value, data: Value, url: string)
    ensures DocumentParts(DataSource("base64", mime, data)) != [ImagePart(url)]
  {
    var source := DataSource("base64", mime, data);
    assert TypeOf(source) == Some("base64");
    var f := FilePart("file_data", OrNull(Get(source, "data")), OrNull(Get(source, "media_type")));
    assert TypeOf(f) == Some("file") && TypeOf(ImagePart(url)) == Some("image_url");
    assert DocumentParts(source)[0] == f;
  }

  /** What a `data:` URL comes back as. */
  lemma DataImageExactly(url: string)
    requires "data:" <= url
    ensures PartPiece(Image(url)) == [ImagePart(url)] <==> exists mime, data :: NormalData(url, mime, data)
  {
    WireOfImage(url);
    if mime, data :| NormalData(url, mime, data) {
      NormalSplits(url, mime, data);
      DataBlockBack(url, mime, data);
    }
    if PartPiece(Image(url)) == [ImagePart(url)] {
      var blocks := DataBlocks(url, ImagePart(url));
      assert blocks != [];
      var parts := Split(url, ';');
      var payload, media := Split(parts[1], ','), Split(parts[0], ':');
      SplitsAreClean(url);
      DataBlockBack(url, media[1], payload[1]);
      assert NormalData(url, media[1], payload[1]);
    }
  }

  /** The pieces cut at one separator lack it, and pieces of pieces lack both. */
  lemma SplitsAreClean(url: string)
    requires |Split(url, ';')| == 2
    ensures var parts := Split(url, ';'); var payload, media := Split(parts[1], ','), Split(parts[0], ':');
      && (|payload| > 1 ==> ';' !in payload[1] && ',' !in payload[1])
      && (|media| == 2 ==> ';' !in media[1] && ':' !in media[1])
  {
    var parts := Split(url, ';');
    SplitKeeps(parts[1], ',');
    SplitKeeps(parts[0], ':');
  }

  lemma {:induction false} SplitKeeps(s: string, c: char)
    ensures forall i, k :: 0 <= i < |Split(s, c)| && 0 <= k < |Split(s, c)[i]| ==> Split(s, c)[i][k] in s
  {
    if s != "" {
      SplitKeeps(s[1..], c);
      var rest, all := Split(s[1..], c), Split(s, c);
      forall i, k | 0 <= i < |all| && 0 <= k < |all[i]| ensures all[i][k] in s {
        if s[0] == c {
          assert i > 0 && all[i] == rest[i - 1];
          assert rest[i - 1][k] in s[1..];
        } else if i > 0 {
          assert all[i] == rest[i];
          assert rest[i][k] in s[1..];
        } else if k > 0 {
          assert all[0] == [s[0]] + rest[0] && all[0][k] == rest[0][k - 1];
          assert rest[0][k - 1] in s[1..];
        }
      }
    }
  }

  /** A `data:` URL that is cut into media type and payload comes back in normal form. */
  lemma DataBlockBack(url: string, mime: string, data: string)
    requires "data:" <= url && data != "" && |Split(url, ';')| == 2
    requires var parts := Split(url, ';'); var payload, media := Split(parts[1], ','), Split(parts[0], ':');
      |payload| > 1 && |media| == 2 && media[1] == mime && payload[1] == data
    ensures PartPiece(Image(url)) == [ImagePart(url)] <==> mime != PDF_MIME && url == "data:" + mime + ";base64," + data
  {
    WireOfImage(url);
    var source := DataSource("base64", Str(mime), Str(data));
    ImageBlockBack(source);
    DataSourceBack(mime, data);
    DocumentIsNoImage(Str(mime), Str(data), url);
    var block := Obj(Sourced(if mime == PDF_MIME then "document" else "image", source));
    assert ItemBlocks(ImagePart(url)) == [block];
    EachOne(block, PartsOf);
    var back := "data:" + mime + ";base64," + data;
    if ImagePart(back) == ImagePart(url) { ImagePartInjective(back, url); }
  }

  lemma PlainImageBack(url: string)
    requires url != "" && !("data:" <= url)
    ensures PartPiece(Image(url)) == [ImagePart(url)]
  {
    WireOfImage(url);
    var source := UrlSource(Str(url));
    assert TypeOf(source) == Some("url") && Get(source, "url") == Some(Str(url));
    ImageBlockBack(source);
    EachOne(Obj(Sourced("image", source)), PartsOf);
  }

  lemma FileFields(key: string, v: Value, mime: Value)
    requires key == "file_url" || key == "file_data"
    ensures var w := FilePart(key, v, mime);
      && TypeOf(w) == Some("file") && GetIn(Get(w, "file"), key) == Some(v)
      && GetIn(Get(w, "file"), "mime_type") == Some(mime)
      && (key == "file_data" ==> GetIn(Get(w, "file"), "file_url") == None)
      && (key == "file_url" ==> GetIn(Get(w, "file"), "file_data") == None)
  {
    assert Get(FilePart(key, v, mime), "file") == Some(Obj(map[key := v, "mime_type" := mime]));
  }

  lemma FileUrlExactly(url: string, mime: Option<string>)
    ensures PartPiece(FileUrl(url, mime)) == [PartWire(FileUrl(url, mime))] <==> NormalPart(FileUrl(url, mime))
  {
    var w := PartWire(FileUrl(url, mime));
    FileFields("file_url", Str(url), OptStr(mime));
    FileFields("file_url", Str(url), Null);
    if url != "" {
      var source := UrlSource(Str(url));
      assert TypeOf(source) == Some("url") && Get(source, "url") == Some(Str(url)) && Get(source, "media_type") == None;
      ImageBlockBack(source);
      assert ItemBlocks(w) == [Obj(Sourced("document", source))];
      EachOne(Obj(Sourced("document", source)), PartsOf);
    }
  }

  lemma FileDataExactly(data: string, mime: Option<string>)
    ensures PartPiece(FileData(data, mime)) == [PartWire(FileData(data, mime))] <==> NormalPart(FileData(data, mime))
  {
    var w := PartWire(FileData(data, mime));
    FileFields("file_data", Str(data), OptStr(mime));
    if data != "" {
      var sent := if mime.Some? then mime.value else PDF_MIME;
      var kind := if sent == TXT_MIME then "text" else "base64";
      var source := DataSource(kind, Str(sent), Str(data));
      FileFields("file_data", Str(data), Str(sent));
      assert TypeOf(source) == Some(kind) && Get(source, "media_type") == Some(Str(sent))
          && Get(source, "data") == Some(Str(data));
      ImageBlockBack(source);
      assert ItemBlocks(w) == [Obj(Sourced("document", source))];
      EachOne(Obj(Sourced("document", source)), PartsOf);
    }
  }

  lemma TextBack(s: string)
    ensures PartPiece(Text(s)) == [TextPart(s)]
    ensures PartsOf(TextPart(s)) == [TextPart(s)]
  {
    var w := TextPart(s);
    assert TypeOf(w) == Some("text") && Get(w, "text") == Some(Str(s));
    assert Ephemeral(w) == None;
    var b := TextBlock(w);
    assert TypeOf(b) == Some("text") && Get(b, "text") == Some(Str(s));
    EachOne(b, PartsOf);
  }

  lemma PartExactly(p: Part)
    ensures |PartPiece(p)| <= 1
    ensures PartPiece(p) == [PartWire(p)] <==> NormalPart(p)
  {
    var blocks := ItemBlocks(PartWire(p));
    if blocks != [] {
      assert blocks == [blocks[0]];
      EachOne(blocks[0], PartsOf);
    }
    match p
    case Text(s) => TextBack(s);
    case Image(url) =>
      WireOfImage(url);
      if url != "" {
        if "data:" <= url { DataImageExactly(url); } else { PlainImageBack(url); }
      }
    case FileUrl(url, mime) => FileUrlExactly(url, mime);
    case FileData(data, mime) => FileDataExactly(data, mime);
  }

  // ----- turns -----

  lemma {:induction false} PartsThereAndBack(parts: seq<Part>)
    ensures Each(Each(Wires(parts, PartWire), ItemBlocks), PartsOf) == Each(parts, PartPiece)
  {
    if parts != [] {
      var wires := Wires(parts, PartWire);
      assert wires[1..] == Wires(parts[1..], PartWire);
      PartsThereAndBack(parts[1..]);
      EachAppend(ItemBlocks(wires[0]), Each(wires[1..], ItemBlocks), PartsOf);
    }
  }

  /** What a message comes back as. */
  function Piece(msg: Value, parse: Parse, render: Render): seq<Value> {
    match ToAnthropic(msg, parse)
    case Err(_) => []
    case Ok(msgs) => Each(msgs, Translator(render))
  }

  function Piecer(parse: Parse, render: Render): Value -> seq<Value> {
    msg => Piece(msg, parse, render)
  }

  function TurnPiece(t: Turn, parse: Parse, render: Render): seq<Value> {
    Piece(Wire(t), parse, render)
  }

  lemma SaidFields(role: Value, content: Value)
    ensures Get(Said(role, content), "role") == Some(role) && Get(Said(role, content), "content") == Some(content)
    ensures Get(Said(role, content), "content_blocks") == None && Get(Said(role, content), "tool_calls") == None
    ensures Get(Said(role, content), "tool_call_id") == None
  {
  }

  /** A message made of blocks is translated from its blocks. */
  lemma BlocksBack(role: Value, blocks: seq<Value>, render: Render)
    ensures Each([Said(role, Arr(blocks))], Translator(render)) == FromBlocks(role, blocks, render)
  {
    SaidFields(role, Arr(blocks));
    EachOne(Said(role, Arr(blocks)), Translator(render));
  }

  lemma UserBack(text: string, parse: Parse, render: Render)
    ensures TurnPiece(User(text), parse, render) == [Wire(User(text))]
  {
    var w := Wire(User(text));
    SaidFields(Str("user"), Str(text));
    assert UserMessage(w) == w;
    EachOne(w, Translator(render));
  }

  lemma SystemBack(developer: bool, text: string, parse: Parse, render: Render)
    ensures TurnPiece(System(developer, text), parse, render) == []
  {
    SaidFields(Str(if developer then "developer" else "system"), Str(text));
  }

  lemma ToolBack(id: string, text: string, parse: Parse, render: Render)
    ensures TurnPiece(Tool(id, text), parse, render) == [Wire(Tool(id, text))]
  {
    var w := Wire(Tool(id, text));
    assert Get(w, "role") == Some(Str("tool")) && Get(w, "tool_call_id") == Some(Str(id))
        && Get(w, "content") == Some(Str(text));
    var block := ToolResult(w);
    assert TypeOf(block) == Some("tool_result") && Get(block, "tool_use_id") == Some(Str(id))
        && Get(block, "content") == Some(Str(text));
    BlocksBack(Str("user"), [block], render);
    EachOne(block, PartsOf);
    EachOne(block, Caller(render));
    EachOne(block, Resulter(render));
    assert ResultsOf(block, render) == [w];
  }

  predicate IsContent(block: Value) {
    TypeOf(block) in {Some("text"), Some("image"), Some("document")}
  }

  /** User content never turns into calls or results. */
  lemma ItemIsContent(item: Value)
    ensures forall b :: b in ItemBlocks(item) ==> IsContent(b)
  {
    forall b | b in ItemBlocks(item) ensures IsContent(b) {
      var t := TextBlock(item);
      assert TypeOf(t) == Some("text");
    }
  }

  lemma ItemGivesNoCall(item: Value, render: Render)
    ensures Each(ItemBlocks(item), Caller(render)) == [] && Each(ItemBlocks(item), Resulter(render)) == []
  {
    ItemIsContent(item);
    var blocks := ItemBlocks(item);
    if blocks != [] {
      var b := blocks[0];
      assert b in blocks && IsContent(b) && blocks == [b];
      EachOne(b, Caller(render));
      EachOne(b, Resulter(render));
    }
  }

  lemma {:induction false} NothingFromNothing(xs: seq<Value>, f: Value -> seq<Value>, g: Value -> seq<Value>)
    requires forall x :: Each(f(x), g) == []
    ensures Each(Each(xs, f), g) == []
  {
    if xs != [] {
      NothingFromNothing(xs[1..], f, g);
      EachAppend(f(xs[0]), Each(xs[1..], f), g);
    }
  }

  lemma ContentOnly(wires: seq<Value>, render: Render)
    ensures Each(Each(wires, ItemBlocks), Caller(render)) == [] && Each(Each(wires, ItemBlocks), Resulter(render)) == []
  {
    forall x ensures Each(ItemBlocks(x), Caller(render)) == [] && Each(ItemBlocks(x), Resulter(render)) == [] {
      ItemGivesNoCall(x, render);
    }
    NothingFromNothing(wires, ItemBlocks, Caller(render));
    NothingFromNothing(wires, ItemBlocks, Resulter(render));
  }

  predicate TextIsString(v: Value) {
    TypeOf(v) == Some("text") ==> Get(v, "text").Some? && Get(v, "text").value.Str?
  }

  lemma PartTextIsString(block: Value)
    ensures forall v :: v in PartsOf(block) ==> TextIsString(v)
  {
    forall v | v in PartsOf(block) ensures TextIsString(v) {
      var t := TextPart(StrOrEmpty(Get(block, "text")));
      assert Get(t, "text") == Some(Str(StrOrEmpty(Get(block, "text"))));
    }
  }

  lemma {:induction false} PartsTextIsString(blocks: seq<Value>)
    ensures forall v :: v in Each(blocks, PartsOf) ==> TextIsString(v)
  {
    if blocks != [] {
      PartTextIsString(blocks[0]);
      PartsTextIsString(blocks[1..]);
    }
  }

  /** A folded list of parts is the list itself unless it is one text. */
  lemma FoldedExactly(blocks: seq<Value>, wires: seq<Value>)
    ensures var back := Each(blocks, PartsOf);
      Folded(back) == Arr(wires) <==> back == wires && !(|wires| == 1 && TypeOf(wires[0]) == Some("text"))
  {
    PartsTextIsString(blocks);
  }

  /** What a user message with content items comes back as. */
  lemma PartsPiece(parts: seq<Part>, parse: Parse, render: Render)
    ensures var back := Each(parts, PartPiece);
      TurnPiece(Parts(parts), parse, render) == if back == [] then [] else [Said(Str("user"), Folded(back))]
  {
    var wires := Wires(parts, PartWire);
    var w, role, back := Wire(Parts(parts)), Str("user"), Each(parts, PartPiece);
    SaidFields(role, Arr(wires));
    var blocks := Each(wires, ItemBlocks);
    var m := UserMessage(w);
    assert m == Said(role, Arr(blocks));
    assert ToAnthropic(w, parse) == Ok([m]);
    BlocksBack(role, blocks, render);
    PartsThereAndBack(parts);
    ContentOnly(wires, render);
    assert back != [] ==> Turned(role, back, []) == Said(role, Folded(back));
  }

  lemma PartListExactly(parts: seq<Part>)
    ensures Each(parts, PartPiece) == Wires(parts, PartWire) <==> forall i :: 0 <= i < |parts| ==> NormalPart(parts[i])
  {
    forall i | 0 <= i < |parts|
      ensures |PartPiece(parts[i])| <= 1
      ensures PartPiece(parts[i]) == [PartWire(parts[i])] <==> NormalPart(parts[i])
    {
      PartExactly(parts[i]);
    }
    PiecesExactly(parts, PartPiece, PartWire);
  }

  /** The parts fold back to the original content exactly when they are normal and not one text. */
  lemma PartsFold(parts: seq<Part>, parse: Parse, render: Render)
    requires parts != []
    ensures Folded(Each(parts, PartPiece)) == Arr(Wires(parts, PartWire)) <==> NormalTurn(Parts(parts), parse, render)
  {
    PartListExactly(parts);
    PartsThereAndBack(parts);
    FoldedExactly(Each(Wires(parts, PartWire), ItemBlocks), Wires(parts, PartWire));
    PartType(parts[0]);
  }

  lemma PartsExactly(parts: seq<Part>, parse: Parse, render: Render)
    ensures |TurnPiece(Parts(parts), parse, render)| <= 1
    ensures TurnPiece(Parts(parts), parse, render) == [Wire(Parts(parts))] <==> NormalTurn(Parts(parts), parse, render)
  {
    var wires, back := Wires(parts, PartWire), Each(parts, PartPiece);
    PartsPiece(parts, parse, render);
    SaidFields(Str("user"), Arr(wires));
    SaidFields(Str("user"), Folded(back));
    if parts != [] {
      PartsFold(parts, parse, render);
      PartListExactly(parts);
    }
  }

  lemma PartType(p: Part)
    ensures TypeOf(PartWire(p)) == Some("text") <==> p.Text?
  {
    match p
    case Text(s) => assert TypeOf(TextPart(s)) == Some("text");
    case Image(url) => assert TypeOf(ImagePart(url)) == Some("image_url");
    case FileUrl(url, mime) => FileFields("file_url", Str(url), OptStr(mime));
    case FileData(data, mime) => FileFields("file_data", Str(data), OptStr(mime));
  }

  // ----- assistant turns -----

  function CallPiece(c: Call, parse: Parse, render: Render): seq<Value> {
    match CallInput(CallWire(c), parse)
    case Ok(v) => [FunctionCall(c.id, c.name, render(v))]
    case Err(_) => []
  }

  function CallPiecer(parse: Parse, render: Render): Call -> seq<Value> {
    c => CallPiece(c, parse, render)
  }

  lemma CallFields(c: Call)
    ensures var w := CallWire(c);
      && Get(w, "id") == Some(Str(c.id)) && Get(w, "cache_control") == None
      && GetIn(Get(w, "function"), "name") == Some(Str(c.name))
      && GetIn(Get(w, "function"), "arguments") == Some(Str(c.arguments))
  {
    assert Get(CallWire(c), "function") == Some(Obj(map["name" := Str(c.name), "arguments" := Str(c.arguments)]));
  }

  lemma CallExactly(c: Call, parse: Parse, render: Render)
    requires render(Obj(map[])) != ""
    ensures CallPiece(c, parse, render) == [CallWire(c)] <==> NormalCall(c, parse, render)
  {
    CallFields(c);
    var input := CallInput(CallWire(c), parse);
    if input.Ok? { CallFields(Call(c.id, c.name, render(input.value))); }
  }

  /** A tool use gives its call back, and nothing else. */
  lemma ToolUseBack(c: Call, input: Value, render: Render)
    ensures var u := ToolUse(CallWire(c), input);
      CallsOf(u, render) == [FunctionCall(c.id, c.name, render(input))] && PartsOf(u) == []
          && ResultsOf(u, render) == []
  {
    CallFields(c);
    var u := ToolUse(CallWire(c), input);
    assert TypeOf(u) == Some("tool_use");
    assert Get(u, "id") == Some(Str(c.id)) && Get(u, "name") == Some(Str(c.name)) && Get(u, "input") == Some(input);
  }

  /** When the calls of a turn pass, they come back. */
  lemma {:induction false} UsesBack(calls: seq<Call>, parse: Parse, render: Render)
    requires ToolUses(Wires(calls, CallWire), parse).Ok?
    ensures UsesGive(ToolUses(Wires(calls, CallWire), parse).value, calls, parse, render)
  {
    if calls != [] {
      var wires, rest := Wires(calls, CallWire), calls[1..];
      assert wires[1..] == Wires(rest, CallWire);
      var input, uses := CallInput(wires[0], parse), ToolUses(wires[1..], parse);
      UsesBack(rest, parse, render);
      ToolUseBack(calls[0], input.value, render);
      UsesPrepend(ToolUse(wires[0], input.value), uses.value, calls, parse, render);
    }
  }

  /** When they do not, one has bad arguments. */
  lemma {:induction false} BadCall(wires: seq<Value>, parse: Parse) returns (i: nat)
    requires ToolUses(wires, parse).Err?
    ensures i < |wires| && CallInput(wires[i], parse).Err?
  {
    if CallInput(wires[0], parse).Err? {
      i := 0;
    } else {
      i := BadCall(wires[1..], parse);
      i := i + 1;
    }
  }

  ghost predicate UsesGive(uses: seq<Value>, calls: seq<Call>, parse: Parse, render: Render) {
    && Each(uses, Caller(render)) == Each(calls, CallPiecer(parse, render))
    && |Each(uses, Caller(render))| == |calls|
    && Each(uses, PartsOf) == [] && Each(uses, Resulter(render)) == []
  }

  lemma UsesPrepend(u: Value, uses: seq<Value>, calls: seq<Call>, parse: Parse, render: Render)
    requires calls != [] && UsesGive(uses, calls[1..], parse, render)
    requires PartsOf(u) == [] && ResultsOf(u, render) == []
    requires CallsOf(u, render) == CallPiece(calls[0], parse, render) && |CallsOf(u, render)| == 1
    ensures UsesGive([u] + uses, calls, parse, render)
  {
    var all := [u] + uses;
    assert all[0] == u && all[1..] == uses;
  }

  function Words(content: Option<string>): seq<Value> {
    if content.Some? && content.value != "" then [TextPart(content.value)] else []
  }

  lemma AssistantFields(content: Option<string>, calls: seq<Call>)
    ensures var w := Wire(Assistant(content, calls));
      && Get(w, "role") == Some(Str("assistant")) && Get(w, "content") == Some(OptStr(content))
      && Get(w, "content_blocks") == None && CallsIn(w) == Wires(calls, CallWire)
  {
    if calls == [] { SaidFields(Str("assistant"), OptStr(content)); }
  }

  lemma AssistantForward(content: Option<string>, calls: seq<Call>, parse: Parse)
    ensures ToAnthropic(Wire(Assistant(content, calls)), parse)
         == match ToolUses(Wires(calls, CallWire), parse)
            case Err(e) => Err(e)
            case Ok(uses) => Ok([Said(Str("assistant"), Arr(Words(content) + uses))])
  {
    AssistantFields(content, calls);
  }

  lemma WordsBack(content: Option<string>, render: Render)
    ensures Each(Words(content), PartsOf) == Words(content)
    ensures Each(Words(content), Caller(render)) == [] && Each(Words(content), Resulter(render)) == []
  {
    if Words(content) != [] {
      var w := TextPart(content.value);
      TextBack(content.value);
      assert TypeOf(w) == Some("text");
      EachOne(w, PartsOf);
      EachOne(w, Caller(render));
      EachOne(w, Resulter(render));
    }
  }

  /** What an assistant message comes back as. */
  function Reply(words: seq<Value>, calls: seq<Value>): seq<Value> {
    if words == [] && calls == [] then [] else [Turned(Str("assistant"), words, calls)]
  }

  /** Blocks that give only parts, then blocks that give only calls. */
  lemma ReplyOf(words: seq<Value>, uses: seq<Value>, parts: seq<Value>, calls: seq<Value>, render: Render)
    requires Each(words, PartsOf) == parts && Each(words, Caller(render)) == [] && Each(words, Resulter(render)) == []
    requires Each(uses, PartsOf) == [] && Each(uses, Caller(render)) == calls && Each(uses, Resulter(render)) == []
    ensures FromBlocks(Str("assistant"), words + uses, render) == Reply(parts, calls)
  {
    EachAppend(words, uses, PartsOf);
    EachAppend(words, uses, Caller(render));
    EachAppend(words, uses, Resulter(render));
    assert parts + [] == parts && [] + calls == calls;
  }

  lemma AssistantPiece(content: Option<string>, calls: seq<Call>, uses: seq<Value>, parse: Parse, render: Render)
    requires ToolUses(Wires(calls, CallWire), parse) == Ok(uses) && UsesGive(uses, calls, parse, render)
    ensures TurnPiece(Assistant(content, calls), parse, render)
        == Reply(Words(content), Each(calls, CallPiecer(parse, render)))
  {
    AssistantForward(content, calls, parse);
    BlocksBack(Str("assistant"), Words(content) + uses, render);
    WordsBack(content, render);
    ReplyOf(Words(content), uses, Words(content), Each(calls, CallPiecer(parse, render)), render);
  }

  lemma WordsFolded(content: Option<string>)
    requires Words(content) != []
    ensures Folded(Words(content)) == Str(content.value)
  {
    var w := TextPart(content.value);
    assert TypeOf(w) == Some("text") && Get(w, "text") == Some(Str(content.value));
  }

  lemma TurnedFields(content: Option<string>, back: seq<Value>)
    requires Words(content) != [] || back != []
    ensures var t := Turned(Str("assistant"), Words(content), back);
      && Get(t, "content") == Some(if Words(content) == [] then Str("") else Str(content.value))
      && (back != [] ==> Get(t, "tool_calls") == Some(Arr(back)))
  {
    if Words(content) != [] { WordsFolded(content); }
  }

  /** The reply is the original message exactly when its content is a string, which is not
      empty unless there are calls, and its calls are unchanged. */
  lemma ReplyExactly(content: Option<string>, calls: seq<Call>, back: seq<Value>)
    requires |back| == |calls|
    ensures Reply(Words(content), back) == [Wire(Assistant(content, calls))]
      <==> content.Some? && (content.value != "" || calls != []) && back == Wires(calls, CallWire)
  {
    if Words(content) != [] || back != [] {
      AssistantFields(content, calls);
      TurnedFields(content, back);
      if content.Some? && back == Wires(calls, CallWire) { ReplyMatches(content, calls); }
    }
  }

  lemma ReplyMatches(content: Option<string>, calls: seq<Call>)
    requires content.Some? && (content.value != "" || calls != [])
    ensures Turned(Str("assistant"), Words(content), Wires(calls, CallWire)) == Wire(Assistant(content, calls))
  {
    if Words(content) != [] { WordsFolded(content); }
  }

  lemma CallsExactly(calls: seq<Call>, parse: Parse, render: Render)
    requires render(Obj(map[])) != ""
    ensures Each(calls, CallPiecer(parse, render)) == Wires(calls, CallWire)
      <==> forall i :: 0 <= i < |calls| ==> NormalCall(calls[i], parse, render)
  {
    forall i | 0 <= i < |calls|
      ensures CallPiece(calls[i], parse, render) == [CallWire(calls[i])] <==> NormalCall(calls[i], parse, render)
    {
      CallExactly(calls[i], parse, render);
    }
    PiecesExactly(calls, CallPiecer(parse, render), CallWire);
  }

  lemma {:induction false} RejectedCall(calls: seq<Call>, parse: Parse, render: Render)
    requires render(Obj(map[])) != "" && ToolUses(Wires(calls, CallWire), parse).Err?
    ensures exists i :: 0 <= i < |calls| && !NormalCall(calls[i], parse, render)
  {
    var i := BadCall(Wires(calls, CallWire), parse);
    CallExactly(calls[i], parse, render);
  }

  lemma {:induction false} AssistantRejected(content: Option<string>, calls: seq<Call>, parse: Parse, render: Render)
    requires render(Obj(map[])) != "" && ToolUses(Wires(calls, CallWire), parse).Err?
    ensures TurnPiece(Assistant(content, calls), parse, render) == []
    ensures !NormalTurn(Assistant(content, calls), parse, render)
  {
    AssistantForward(content, calls, parse);
    RejectedCall(calls, parse, render);
  }

  lemma {:induction false} ReplyNormal(content: Option<string>, calls: seq<Call>, parse: Parse, render: Render)
    requires render(Obj(map[])) != "" && |Each(calls, CallPiecer(parse, render))| == |calls|
    ensures Reply(Words(content), Each(calls, CallPiecer(parse, render))) == [Wire(Assistant(content, calls))]
      <==> NormalTurn(Assistant(content, calls), parse, render)
  {
    ReplyExactly(content, calls, Each(calls, CallPiecer(parse, render)));
    CallsExactly(calls, parse, render);
  }

  lemma {:induction false} AssistantExactly(content: Option<string>, calls: seq<Call>, parse: Parse, render: Render)
    requires render(Obj(map[])) != ""
    ensures var t := Assistant(content, calls);
      && |TurnPiece(t, parse, render)| <= 1
      && (TurnPiece(t, parse, render) == [Wire(t)] <==> NormalTurn(t, parse, render))
  {
    var uses := ToolUses(Wires(calls, CallWire), parse);
    if uses.Err? {
      AssistantRejected(content, calls, parse, render);
    } else {
      UsesBack(calls, parse, render);
      AssistantPiece(content, calls, uses.value, parse, render);
      ReplyNormal(content, calls, parse, render);
    }
  }

  lemma TurnExactly(t: Turn, parse: Parse, render: Render)
    requires render(Obj(map[])) != ""
    ensures |TurnPiece(t, parse, render)| <= 1
    ensures t.System? ==> TurnPiece(t, parse, render) == []
    ensures !t.System? ==> (TurnPiece(t, parse, render) == [Wire(t)] <==> NormalTurn(t, parse, render))
  {
    match t
    case System(developer, text) => SystemBack(developer, text, parse, render);
    case User(text) => UserBack(text, parse, render);
    case Parts(parts) => PartsExactly(parts, parse, render);
    case Assistant(content, calls) => AssistantExactly(content, calls, parse, render);
    case Tool(id, text) => ToolBack(id, text, parse, render);
  }

  // ----- whole conversations -----

  function TurnPiecer(parse: Parse, render: Render): Turn -> seq<Value> {
    t => TurnPiece(t, parse, render)
  }

  /** Messages are translated one by one, or one of them is rejected. */
  lemma {:induction false} OneByOne(msgs: seq<Value>, parse: Parse, render: Render)
    ensures match AllToAnthropic(msgs, parse)
      case Err(_) => exists i :: 0 <= i < |msgs| && ToAnthropic(msgs[i], parse).Err?
      case Ok(out) => Each(out, Translator(render)) == Each(msgs, Piecer(parse, render))
  {
    if msgs != [] {
      var rest := msgs[1..];
      OneByOne(rest, parse, render);
      var m, ms := ToAnthropic(msgs[0], parse), AllToAnthropic(rest, parse);
      if m.Ok? && ms.Err? {
        var i :| 0 <= i < |rest| && ToAnthropic(rest[i], parse).Err?;
        assert ToAnthropic(msgs[i + 1], parse).Err?;
      } else if m.Ok? {
        EachAppend(m.value, ms.value, Translator(render));
      }
    }
  }

  lemma {:induction false} EachWire<T, U>(xs: seq<T>, wire: T -> Value, f: Value -> seq<U>, g: T -> seq<U>)
    requires forall i :: 0 <= i < |xs| ==> g(xs[i]) == f(wire(xs[i]))
    ensures Each(Wires(xs, wire), f) == Each(xs, g)
  {
    if xs != [] {
      assert Wires(xs, wire)[1..] == Wires(xs[1..], wire);
      EachWire(xs[1..], wire, f, g);
    }
  }

  /** A conversation is translated turn by turn, or one turn is rejected. */
  lemma TurnByTurn(conv: seq<Turn>, parse: Parse, render: Render)
    ensures match AllToAnthropic(Wires(conv, Wire), parse)
      case Err(_) => exists i :: 0 <= i < |conv| && ToAnthropic(Wire(conv[i]), parse).Err?
      case Ok(msgs) => Each(msgs, Translator(render)) == Each(conv, TurnPiecer(parse, render))
  {
    OneByOne(Wires(conv, Wire), parse, render);
    EachWire(conv, Wire, Piecer(parse, render), TurnPiecer(parse, render));
  }

  function SystemWords(t: Turn): seq<string> {
    if t.System? then [t.text] else []
  }

  lemma SystemTextBack(t: Turn)
    ensures Each(SystemEntries(Wire(t)), SystemText) == SystemWords(t)
  {
    match t
    case System(developer, text) =>
      SaidFields(Str(if developer then "developer" else "system"), Str(text));
      var e := TextPart(text);
      assert TypeOf(e) == Some("text") && Get(e, "text") == Some(Str(text));
      assert SystemEntries(Wire(t)) == [e];
      EachOne(e, SystemText);
    case Assistant(content, calls) => AssistantFields(content, calls);
    case User(text) => SaidFields(Str("user"), Str(text));
    case Parts(parts) => SaidFields(Str("user"), Arr(Wires(parts, PartWire)));
    case Tool(_, _) => assert Get(Wire(t), "role") == Some(Str("tool"));
  }

  /** The system texts of the Anthropic request are those of the conversation. */
  lemma {:induction false} SystemTextsBack(conv: seq<Turn>)
    ensures Each(Each(Wires(conv, Wire), SystemEntries), SystemText) == Each(conv, SystemWords)
  {
    if conv != [] {
      var wires := Wires(conv, Wire);
      assert wires[1..] == Wires(conv[1..], Wire);
      SystemTextsBack(conv[1..]);
      SystemTextBack(conv[0]);
      EachAppend(SystemEntries(wires[0]), Each(wires[1..], SystemEntries), SystemText);
    }
  }

  /** The leading message that the system texts come back as. */
  function Lead(texts: seq<string>): (r: seq<Value>)
    ensures |r| <= 1
  {
    if Join(texts, "\n") == "" then [] else [Said(Str("system"), Str(Join(texts, "\n")))]
  }

  lemma ParamsRead(system: seq<Value>, messages: seq<Value>)
    ensures MessagesIn(AnthropicParams(system, messages)) == messages
    ensures SystemPart(AnthropicParams(system, messages)) == Lead(Each(system, SystemText))
  {
    var params := AnthropicParams(system, messages);
    assert Get(params, "system") == Some(Arr(system)) && Get(params, "messages") == Some(Arr(messages));
  }

  lemma RoundTripIsPieces(conv: seq<Turn>, parse: Parse, render: Render)
    ensures RoundTrips(conv, parse, render) <==>
      && AllToAnthropic(Wires(conv, Wire), parse).Ok?
      && Lead(Each(conv, SystemWords)) + Each(conv, TurnPiecer(parse, render)) == Wires(conv, Wire)
  {
    TurnByTurn(conv, parse, render);
    SystemTextsBack(conv);
    var wires := Wires(conv, Wire);
    var msgs := AllToAnthropic(wires, parse);
    if msgs.Ok? { ParamsRead(Each(wires, SystemEntries), msgs.value); }
  }

  lemma {:induction false} OneEach<T, U, V>(xs: seq<T>, f: T -> seq<U>, g: T -> seq<V>)
    requires forall i :: 0 <= i < |xs| ==> |f(xs[i])| + |g(xs[i])| <= 1
    ensures |Each(xs, f)| + |Each(xs, g)| <= |xs|
  {
    if xs != [] { OneEach(xs[1..], f, g); }
  }

  lemma {:induction false} NoSystemWords(conv: seq<Turn>)
    ensures Each(conv, SystemWords) == [] <==> forall i :: 0 <= i < |conv| ==> !conv[i].System?
  {
    if conv != [] {
      NoSystemWords(conv[1..]);
      assert conv == [conv[0]] + conv[1..];
    }
  }

  /** Every turn gives at most one message, a system turn none of its own. */
  lemma PieceCount(conv: seq<Turn>, parse: Parse, render: Render)
    requires render(Obj(map[])) != ""
    ensures |Each(conv, TurnPiecer(parse, render))| + |Each(conv, SystemWords)| <= |conv|
    ensures Each(conv, SystemWords) == [] <==> forall i :: 0 <= i < |conv| ==> !conv[i].System?
  {
    forall i | 0 <= i < |conv| ensures |TurnPiece(conv[i], parse, render)| + |SystemWords(conv[i])| <= 1 {
      TurnExactly(conv[i], parse, render);
    }
    OneEach(conv, TurnPiecer(parse, render), SystemWords);
    NoSystemWords(conv);
  }

  /** Without system turns, the pieces make the conversation exactly when every turn is normal. */
  lemma PlainExactly(conv: seq<Turn>, parse: Parse, render: Render)
    requires render(Obj(map[])) != "" && forall i :: 0 <= i < |conv| ==> !conv[i].System?
    ensures Each(conv, TurnPiecer(parse, render)) == Wires(conv, Wire) <==> InFragment(conv, parse, render)
  {
    forall i | 0 <= i < |conv|
      ensures |TurnPiece(conv[i], parse, render)| <= 1
      ensures TurnPiece(conv[i], parse, render) == [Wire(conv[i])] <==> NormalTurn(conv[i], parse, render)
    {
      TurnExactly(conv[i], parse, render);
    }
    PiecesExactly(conv, TurnPiecer(parse, render), Wire);
  }

  lemma FragmentHead(conv: seq<Turn>, parse: Parse, render: Render)
    requires conv != [] && conv[0].System?
    ensures InFragment(conv, parse, render) <==>
      && !conv[0].developer && conv[0].text != "" && InFragment(conv[1..], parse, render)
      && forall i :: 0 <= i < |conv[1..]| ==> !conv[1..][i].System?
  {
    var rest := conv[1..];
    assert forall i :: 0 < i < |conv| ==> conv[i] == rest[i - 1];
  }

  /** A led conversation: the lead is the one system text. */
  lemma LedExactly(conv: seq<Turn>, parse: Parse, render: Render)
    requires render(Obj(map[])) != "" && conv != [] && conv[0].System?
    ensures Lead(Each(conv, SystemWords)) + Each(conv, TurnPiecer(parse, render)) == Wires(conv, Wire)
      <==> InFragment(conv, parse, render)
  {
    var rest, text := conv[1..], conv[0].text;
    var lead, pieces := Lead(Each(conv, SystemWords)), Each(conv, TurnPiecer(parse, render));
    TurnExactly(conv[0], parse, render);
    assert pieces == Each(rest, TurnPiecer(parse, render));
    assert Each(conv, SystemWords) == [text] + Each(rest, SystemWords);
    PieceCount(rest, parse, render);
    FragmentHead(conv, parse, render);
    if Each(rest, SystemWords) == [] {
      PlainExactly(rest, parse, render);
      assert Join([text], "\n") == text;
      LeadMatches(lead, pieces, conv);
    }
  }

  /** The lead accounts for the first message, the pieces for the rest. */
  lemma LeadMatches(lead: seq<Value>, pieces: seq<Value>, conv: seq<Turn>)
    requires conv != [] && conv[0].System? && |pieces| <= |conv| - 1
    requires lead == if conv[0].text == "" then [] else [Said(Str("system"), Str(conv[0].text))]
    ensures lead + pieces == Wires(conv, Wire)
      <==> !conv[0].developer && conv[0].text != "" && pieces == Wires(conv[1..], Wire)
  {
    var wires := Wires(conv, Wire);
    SaidFields(Str("system"), Str(conv[0].text));
    SaidFields(Str("developer"), Str(conv[0].text));
    assert wires == [Wire(conv[0])] + Wires(conv[1..], Wire);
    if lead + pieces == wires { Aligned(lead, pieces, wires[0], Wires(conv[1..], Wire)); }
  }

  /** A lead without a leading system turn never matches. */
  lemma UnledFails(conv: seq<Turn>, parse: Parse, render: Render)
    requires render(Obj(map[])) != "" && (conv == [] || !conv[0].System?) && Each(conv, SystemWords) != []
    ensures Lead(Each(conv, SystemWords)) + Each(conv, TurnPiecer(parse, render)) != Wires(conv, Wire)
    ensures !InFragment(conv, parse, render)
  {
    PieceCount(conv, parse, render);
    var lead := Lead(Each(conv, SystemWords));
    if lead != [] && conv != [] { LeadIsNoTurn(lead[0].fields["content"], conv[0]); }
  }

  lemma LeadIsNoTurn(text: Value, t: Turn)
    requires !t.System?
    ensures Said(Str("system"), text) != Wire(t)
  {
    SaidFields(Str("system"), text);
    match t
    case Assistant(content, calls) => AssistantFields(content, calls);
    case User(s) => SaidFields(Str("user"), Str(s));
    case Parts(parts) => SaidFields(Str("user"), Arr(Wires(parts, PartWire)));
    case Tool(_, _) => assert Get(Wire(t), "role") == Some(Str("tool"));
  }

  /** The round trip returns a conversation unchanged exactly when it lies in the fragment. */
  lemma RoundTripExactly(conv: seq<Turn>, parse: Parse, render: Render)
    requires render(Obj(map[])) != ""
    ensures RoundTrips(conv, parse, render) <==> InFragment(conv, parse, render)
  {
    RoundTripIsPieces(conv, parse, render);
    TurnByTurn(conv, parse, render);
    PieceCount(conv, parse, render);
    var lead, pieces := Lead(Each(conv, SystemWords)), Each(conv, TurnPiecer(parse, render));
    if conv != [] && conv[0].System? {
      LedExactly(conv, parse, render);
    } else if Each(conv, SystemWords) == [] {
      PlainExactly(conv, parse, render);
      assert lead == [] && lead + pieces == pieces;
    } else {
      UnledFails(conv, parse, render);
    }
    if AllToAnthropic(Wires(conv, Wire), parse).Err? { RejectedIsOutside(conv, parse, render); }
  }

  /** A rejected turn is no normal turn. */
  lemma RejectedIsOutside(conv: seq<Turn>, parse: Parse, render: Render)
    requires render(Obj(map[])) != "" && exists i :: 0 <= i < |conv| && ToAnthropic(Wire(conv[i]), parse).Err?
    ensures !InFragment(conv, parse, render)
  {
    var i :| 0 <= i < |conv| && ToAnthropic(Wire(conv[i]), parse).Err?;
    TurnExactly(conv[i], parse, render);
    assert TurnPiece(conv[i], parse, render) == [];
    if conv[i].System? { SaidFields(Str(if conv[i].developer then "developer" else "system"), Str(conv[i].text)); }
  }
}
