/**
 The bounded text that cache-aware routing compares (`src/middleware/router.rs`): a builder
 that stops taking characters at its limit, and appenders that stop walking the request once
 it is full.  How `serde_json` prints a number is the parameter `number`.
 */
module RoutingText {
  import opened Basics
  import opened Json
  import opened Router
  import opened Sequences

  datatype Endpoint = Complete | Embed | Messages | ChatComplete | CreateModelResponse

  type Printer = Value -> string

  // ----- the unbounded rendering -----

  /** A separator only follows something. */
  function Separated(acc: string, sep: string): string {
    if acc == "" then acc else acc + sep
  }

  /** A value's text after `acc`, without any limit. */
  function Prompt(acc: string, v: Value, number: Printer): (r: string)
    ensures acc <= r
    decreases v
  {
    match v
    case Str(s) => acc + s
    case Int(_) => acc + number(v)
    case Float(_) => acc + number(v)
    case Arr(items) => if items == [] then acc else Prompts(Prompt(acc, items[0], number), v, 1, number)
    case Obj(fields) =>
      if "text" in fields then Prompt(acc, fields["text"], number)
      else if "content" in fields then Prompt(acc, fields["content"], number)
      else acc
    case _ => acc
  }

  /** The items of an array from `i > 0` on, each behind a separator. */
  function Prompts(acc: string, v: Value, i: nat, number: Printer): (r: string)
    requires v.Arr? && 0 < i <= |v.items|
    ensures acc <= r
    decreases v, |v.items| - i
  {
    if i == |v.items| then acc
    else Prompts(Prompt(Separated(acc, " "), v.items[i], number), v, i + 1, number)
  }

  function OptPrompt(acc: string, v: Option<Value>, number: Printer): (r: string)
    ensures acc <= r
  {
    if v.Some? then Prompt(acc, v.value, number) else acc
  }

  function Role(msg: Value): string {
    var role := AsStr(Get(msg, "role"));
    if role.Some? then role.value else ""
  }

  function Message(acc: string, msg: Value, number: Printer): (r: string)
    ensures acc <= r
  {
    OptPrompt(Separated(acc, "\n") + Role(msg) + ":", Get(msg, "content"), number)
  }

  function MessageList(acc: string, msgs: seq<Value>, number: Printer): (r: string)
    ensures acc <= r
    decreases |msgs|
  {
    if msgs == [] then acc else MessageList(Message(acc, msgs[0], number), msgs[1..], number)
  }

  function OptMessages(acc: string, v: Option<Value>, number: Printer): string {
    if AsArray(v).Some? then MessageList(acc, AsArray(v).value, number) else acc
  }

  /** The text a request would have without the limit. */
  function Unbounded(params: Value, endpoint: Endpoint, number: Printer): string {
    match endpoint
    case Complete => OptPrompt("", Get(params, "prompt"), number)
    case Embed => OptPrompt("", Get(params, "input"), number)
    case CreateModelResponse => OptPrompt("", Get(params, "input"), number)
    case _ => OptMessages("", Get(params, "messages"), number)
  }

  // ----- a plain reading of the rendering -----

  /** A value's own text: arrays are their items' texts joined by spaces. */
  function Flat(v: Value, number: Printer): string
    decreases v
  {
    match v
    case Str(s) => s
    case Int(_) => number(v)
    case Float(_) => number(v)
    case Arr(items) => Join(Flats(v, 0, number), " ")
    case Obj(fields) =>
      if "text" in fields then Flat(fields["text"], number)
      else if "content" in fields then Flat(fields["content"], number)
      else ""
    case _ => ""
  }

  function Flats(v: Value, i: nat, number: Printer): (r: seq<string>)
    requires v.Arr? && i <= |v.items|
    ensures |r| == |v.items| - i
    decreases v, |v.items| - i
  {
    if i == |v.items| then [] else [Flat(v.items[i], number)] + Flats(v, i + 1, number)
  }

  /** Each further part behind its separator. */
  function Tail(parts: seq<string>, sep: string): string {
    if parts == [] then "" else sep + parts[0] + Tail(parts[1..], sep)
  }

  lemma {:induction false} JoinIsTail(parts: seq<string>, sep: string)
    requires parts != []
    ensures Join(parts, sep) == parts[0] + Tail(parts[1..], sep)
  {
    if |parts| > 1 {
      JoinIsTail(parts[1..], sep);
      assert parts[0] + sep + (parts[1..][0] + Tail(parts[1..][1..], sep))
          == parts[0] + (sep + parts[1..][0] + Tail(parts[1..][1..], sep));
    }
  }

  /** Behind something non-empty, no separator is ever dropped. */
  lemma {:induction false} PromptAppends(acc: string, v: Value, number: Printer)
    requires acc != ""
    ensures Prompt(acc, v, number) == acc + Flat(v, number)
    decreases v
  {
    match v
    case Arr(items) =>
      if items != [] {
        PromptAppends(acc, items[0], number);
        PromptsAppend(acc + Flat(items[0], number), v, 1, number);
        JoinIsTail(Flats(v, 0, number), " ");
        assert Flats(v, 0, number)[1..] == Flats(v, 1, number);
      }
    case Obj(fields) =>
      if "text" in fields { PromptAppends(acc, fields["text"], number); }
      else if "content" in fields { PromptAppends(acc, fields["content"], number); }
    case _ =>
  }

  lemma {:induction false} PromptsAppend(acc: string, v: Value, i: nat, number: Printer)
    requires v.Arr? && 0 < i <= |v.items| && acc != ""
    ensures Prompts(acc, v, i, number) == acc + Tail(Flats(v, i, number), " ")
    decreases v, |v.items| - i
  {
    if i < |v.items| {
      var item := Flat(v.items[i], number);
      PromptAppends(acc + " ", v.items[i], number);
      PromptsAppend(acc + " " + item, v, i + 1, number);
      var rest := Tail(Flats(v, i + 1, number), " ");
      assert Flats(v, i, number)[1..] == Flats(v, i + 1, number);
      Bracket(acc, " ", item, rest);
    }
  }

  function Spaces(n: nat): string {
    if n == 0 then "" else " " + Spaces(n - 1)
  }

  lemma {:induction false} SpacesAdd(m: nat, n: nat)
    ensures Spaces(m + n) == Spaces(m) + Spaces(n)
  {
    if m > 0 { SpacesAdd(m - 1, n); }
  }

  /** How many separators stand before the first text in a value. */
  function Leading(v: Value, number: Printer): nat
    decreases v
  {
    match v
    case Arr(items) => LeadingFrom(v, 0, number)
    case Obj(fields) =>
      if "text" in fields then Leading(fields["text"], number)
      else if "content" in fields then Leading(fields["content"], number)
      else 0
    case _ => 0
  }

  function LeadingFrom(v: Value, i: nat, number: Printer): nat
    requires v.Arr? && i <= |v.items|
    decreases v, |v.items| - i
  {
    if i == |v.items| then 0
    else Leading(v.items[i], number)
         + if |Flat(v.items[i], number)| == Leading(v.items[i], number) && i + 1 < |v.items|
           then 1 + LeadingFrom(v, i + 1, number) else 0
  }

  /** With nothing in front, a value's text is its own text without the separators that would
      come before the first text in it. */
  lemma {:induction false} LeadingDropped(v: Value, number: Printer)
    ensures Flat(v, number) == Spaces(Leading(v, number)) + Prompt("", v, number)
    decreases v
  {
    match v
    case Arr(items) => LeadingItemsDropped(v, 0, number);
    case Obj(fields) =>
      if "text" in fields { LeadingDropped(fields["text"], number); }
      else if "content" in fields { LeadingDropped(fields["content"], number); }
    case _ =>
  }

  /** The items from `i` on, with nothing in front. */
  function Fresh(v: Value, i: nat, number: Printer): string
    requires v.Arr? && i <= |v.items|
  {
    if i == |v.items| then "" else Prompts(Prompt("", v.items[i], number), v, i + 1, number)
  }

  lemma {:induction false} LeadingItemsDropped(v: Value, i: nat, number: Printer)
    requires v.Arr? && i <= |v.items|
    ensures Join(Flats(v, i, number), " ") == Spaces(LeadingFrom(v, i, number)) + Fresh(v, i, number)
    decreases v, |v.items| - i
  {
    if i < |v.items| {
      LeadingDropped(v.items[i], number);
      JoinIsTail(Flats(v, i, number), " ");
      assert Flats(v, i, number)[1..] == Flats(v, i + 1, number);
      if Prompt("", v.items[i], number) != "" {
        FirstItemKept(v, i, number);
      } else {
        if i + 1 < |v.items| { LeadingItemsDropped(v, i + 1, number); }
        BlankItemDropped(v, i, number);
      }
    }
  }

  /** The value is its own text behind separators. */
  predicate Led(v: Value, number: Printer) {
    Flat(v, number) == Spaces(Leading(v, number)) + Prompt("", v, number)
  }

  /** Nothing but separators means no text. */
  lemma BlankIsEmpty(v: Value, number: Printer)
    requires Led(v, number)
    ensures |Flat(v, number)| == Leading(v, number) <==> Prompt("", v, number) == ""
    ensures Prompt("", v, number) == "" ==> Flat(v, number) == Spaces(Leading(v, number))
  {
    SpacesLong(Leading(v, number));
  }

  lemma FirstItemKept(v: Value, i: nat, number: Printer)
    requires v.Arr? && i < |v.items| && Prompt("", v.items[i], number) != "" && Led(v.items[i], number)
    ensures Flat(v.items[i], number) + Tail(Flats(v, i + 1, number), " ")
            == Spaces(LeadingFrom(v, i, number)) + Fresh(v, i, number)
  {
    var item, first, rest := v.items[i], Prompt("", v.items[i], number), Flats(v, i + 1, number);
    BlankIsEmpty(item, number);
    PromptsAppend(first, v, i + 1, number);
    Assoc(Spaces(Leading(item, number)), first, Tail(rest, " "));
  }

  lemma BlankItemDropped(v: Value, i: nat, number: Printer)
    requires v.Arr? && i < |v.items| && Prompt("", v.items[i], number) == "" && Led(v.items[i], number)
    requires i + 1 < |v.items| ==>
      Join(Flats(v, i + 1, number), " ") == Spaces(LeadingFrom(v, i + 1, number)) + Fresh(v, i + 1, number)
    ensures Flat(v.items[i], number) + Tail(Flats(v, i + 1, number), " ")
            == Spaces(LeadingFrom(v, i, number)) + Fresh(v, i, number)
  {
    var here, rest := Leading(v.items[i], number), Flats(v, i + 1, number);
    BlankIsEmpty(v.items[i], number);
    if i + 1 < |v.items| {
      JoinIsTail(rest, " ");
      SkippedItem(here, LeadingFrom(v, i + 1, number), rest, Fresh(v, i + 1, number));
    }
  }

  lemma SkippedItem(here: nat, later: nat, rest: seq<string>, text: string)
    requires rest != [] && Join(rest, " ") == Spaces(later) + text && Join(rest, " ") == rest[0] + Tail(rest[1..], " ")
    ensures Spaces(here) + Tail(rest, " ") == Spaces(here + (1 + later)) + text
  {
    SpacesAdd(here, 1 + later);
    Assoc(" ", rest[0], Tail(rest[1..], " "));
    assert Tail(rest, " ") == " " + (Spaces(later) + text);
    Assoc(" ", Spaces(later), text);
    Assoc(Spaces(here), Spaces(1 + later), text);
  }

  lemma {:induction false} SpacesLong(n: nat)
    ensures |Spaces(n)| == n
  {
    if n > 0 { SpacesLong(n - 1); }
  }

  /** A value's own text from the first text in it on. */
  function Trimmed(v: Value, number: Printer): string {
    if Leading(v, number) <= |Flat(v, number)| then Flat(v, number)[Leading(v, number)..] else ""
  }

  lemma PromptIsTrimmed(v: Value, number: Printer)
    ensures Leading(v, number) <= |Flat(v, number)| && Prompt("", v, number) == Trimmed(v, number)
  {
    LeadingDropped(v, number);
    SpacesLong(Leading(v, number));
  }

  /** One message's line. */
  function Line(msg: Value, number: Printer): string {
    Role(msg) + ":" + (if Get(msg, "content").Some? then Flat(Get(msg, "content").value, number) else "")
  }

  function Lines(msgs: seq<Value>, number: Printer): (r: seq<string>)
    ensures |r| == |msgs|
  {
    if msgs == [] then [] else [Line(msgs[0], number)] + Lines(msgs[1..], number)
  }

  lemma MessageIsLine(acc: string, msg: Value, number: Printer)
    ensures Message(acc, msg, number) == Separated(acc, "\n") + Line(msg, number)
  {
    var head := Separated(acc, "\n") + Role(msg) + ":";
    if Get(msg, "content").Some? { PromptAppends(head, Get(msg, "content").value, number); }
    assert Separated(acc, "\n") + (Role(msg) + ":") == head;
    assert Message(acc, msg, number) == Separated(acc, "\n") + Line(msg, number);
  }

  lemma {:induction false} MessagesAppend(acc: string, msgs: seq<Value>, number: Printer)
    requires acc != ""
    ensures MessageList(acc, msgs, number) == acc + Tail(Lines(msgs, number), "\n")
    decreases |msgs|
  {
    if msgs != [] {
      var line := Line(msgs[0], number);
      MessageIsLine(acc, msgs[0], number);
      MessagesAppend(acc + "\n" + line, msgs[1..], number);
      assert Lines(msgs, number)[1..] == Lines(msgs[1..], number);
      var rest := Tail(Lines(msgs[1..], number), "\n");
      Bracket(acc, "\n", line, rest);
    }
  }

  /** The unbounded text of a conversation is its messages' lines, joined by newlines. */
  lemma ConversationIsJoinedLines(msgs: seq<Value>, number: Printer)
    ensures MessageList("", msgs, number) == Join(Lines(msgs, number), "\n")
  {
    if msgs != [] {
      MessageIsLine("", msgs[0], number);
      assert Message("", msgs[0], number) == Line(msgs[0], number);
      assert Lines(msgs, number)[1..] == Lines(msgs[1..], number);
      MessagesAppend(Line(msgs[0], number), msgs[1..], number);
      JoinIsTail(Lines(msgs, number), "\n");
    }
  }

  // ----- the bounded builder -----

  /** Text past the limit does not matter. */
  lemma TakePrefix(a: string, b: string, n: nat)
    requires a <= b && |a| >= n
    ensures Take(b, n) == Take(a, n)
  {
    assert b[..n] == a[..n];
  }

  /** The text after the first `i` items of an array. */
  predicate AfterItems(acc: string, done: string, v: Value, i: nat, number: Printer)
    requires v.Arr? && i <= |v.items|
  {
    done <= Prompt(acc, v, number)
    && if i == 0 then done == acc else Prompts(done, v, i, number) == Prompt(acc, v, number)
  }

  lemma OneMoreItem(acc: string, done: string, v: Value, i: nat, number: Printer)
    requires v.Arr? && i < |v.items| && AfterItems(acc, done, v, i, number)
    ensures AfterItems(acc, Prompt(if i > 0 then Separated(done, " ") else done, v.items[i], number), v, i + 1, number)
  {
    var next := Prompt(if i > 0 then Separated(done, " ") else done, v.items[i], number);
    assert next <= Prompts(next, v, i + 1, number);
  }

  class BoundedText {
    var out: string
    var remaining: nat

    constructor (max: nat)
      ensures Holds("", max)
    {
      out, remaining := "", max;
    }

    /** The builder holds the first `max` characters of `acc`. */
    ghost predicate Holds(acc: string, max: nat)
      reads this
    {
      out == Take(acc, max) && |out| + remaining == max
    }

    predicate IsFull()
      reads this
    {
      remaining == 0
    }

    method Push(text: string, ghost acc: string, ghost max: nat)
      requires Holds(acc, max)
      modifies this
      ensures Holds(acc + text, max)
    {
      if remaining == 0 || text == "" {
        if text == "" { assert acc + text == acc; } else { TakePrefix(acc, acc + text, max); }
        return;
      }
      var n := if |text| < remaining then |text| else remaining;
      for i := 0 to n
        invariant out == acc + text[..i] && |out| + remaining == max && n - i <= remaining
      {
        assert text[..i + 1] == text[..i] + [text[i]];
        out := out + [text[i]];
        remaining := remaining - 1;
      }
      if n == |text| { assert text[..n] == text; } else { TakePrefix(acc + text[..n], acc + text, max); }
    }

    method Separator(text: string, ghost acc: string, ghost max: nat)
      requires Holds(acc, max)
      modifies this
      ensures Holds(Separated(acc, text), max)
    {
      if out != "" { Push(text, acc, max); } else if acc != "" { TakePrefix(acc, acc + text, max); }
    }

    method AppendPrompt(v: Option<Value>, number: Printer, ghost acc: string, ghost max: nat)
      requires Holds(acc, max)
      modifies this
      ensures Holds(OptPrompt(acc, v, number), max)
    {
      if v.Some? { AppendPromptValue(v.value, number, acc, max); }
    }

    method AppendPromptValue(v: Value, number: Printer, ghost acc: string, ghost max: nat)
      requires Holds(acc, max)
      modifies this
      ensures Holds(Prompt(acc, v, number), max)
      decreases v, 1
    {
      if IsFull() {
        TakePrefix(acc, Prompt(acc, v, number), max);
        return;
      }
      match v {
        case Str(s) => Push(s, acc, max);
        case Int(_) => Push(number(v), acc, max);
        case Float(_) => Push(number(v), acc, max);
        case Arr(items) => AppendItems(v, number, acc, max);
        case Obj(fields) =>
          if "text" in fields {
            AppendPromptValue(fields["text"], number, acc, max);
          } else if "content" in fields {
            AppendPromptValue(fields["content"], number, acc, max);
          }
        case _ =>
      }
    }

    /** The loop over an array's items, which stops once the builder is full. */
    method AppendItems(v: Value, number: Printer, ghost acc: string, ghost max: nat)
      requires v.Arr? && Holds(acc, max)
      modifies this
      ensures Holds(Prompt(acc, v, number), max)
      decreases v, 0
    {
      var items := v.items;
      ghost var done := acc;
      for i := 0 to |items|
        invariant Holds(done, max) && AfterItems(acc, done, v, i, number)
      {
        OneMoreItem(acc, done, v, i, number);
        if i > 0 {
          Separator(" ", done, max);
          done := Separated(done, " ");
        }
        AppendPromptValue(items[i], number, done, max);
        done := Prompt(done, items[i], number);
        if IsFull() {
          TakePrefix(done, Prompt(acc, v, number), max);
          return;
        }
      }
    }

    method AppendMessages(v: Option<Value>, number: Printer, ghost acc: string, ghost max: nat)
      requires Holds(acc, max)
      modifies this
      ensures Holds(OptMessages(acc, v, number), max)
    {
      if AsArray(v).None? { return; }
      var msgs := AsArray(v).value;
      ghost var done := acc;
      for i := 0 to |msgs|
        invariant Holds(done, max)
        invariant MessageList(done, msgs[i..], number) == MessageList(acc, msgs, number)
      {
        assert msgs[i..][0] == msgs[i] && msgs[i..][1..] == msgs[i + 1..];
        AppendMessage(msgs[i], number, done, max);
        done := Message(done, msgs[i], number);
        if IsFull() {
          TakePrefix(done, MessageList(done, msgs[i + 1..], number), max);
          return;
        }
      }
    }

    method AppendMessage(msg: Value, number: Printer, ghost acc: string, ghost max: nat)
      requires Holds(acc, max)
      modifies this
      ensures Holds(Message(acc, msg, number), max)
    {
      ghost var head := Separated(acc, "\n");
      Separator("\n", acc, max);
      Push(Role(msg), head, max);
      Push(":", head + Role(msg), max);
      AppendPrompt(Get(msg, "content"), number, head + Role(msg) + ":", max);
    }
  }

  predicate IsConversation(params: Value, endpoint: Endpoint) {
    endpoint in {Messages, ChatComplete} && AsArray(Get(params, "messages")).Some?
  }

  function PromptKey(endpoint: Endpoint): string {
    if endpoint == Complete then "prompt" else "input"
  }

  predicate IsPrompt(params: Value, endpoint: Endpoint) {
    endpoint !in {Messages, ChatComplete} && Get(params, PromptKey(endpoint)).Some?
  }

  function PromptOf(params: Value, endpoint: Endpoint): Value
    requires IsPrompt(params, endpoint)
  {
    Get(params, PromptKey(endpoint)).value
  }

  /** `bounded_routing_text`: the first 16384 characters of the unbounded text.  For a prompt
      that is its own text from the first text in it on, for a conversation its lines joined
      by newlines. */
  method BoundedRoutingText(params: Value, endpoint: Endpoint, number: Printer) returns (text: string)
    ensures text == Bounded(Unbounded(params, endpoint, number))
    ensures IsPrompt(params, endpoint) ==> text == Bounded(Trimmed(PromptOf(params, endpoint), number))
    ensures IsConversation(params, endpoint) ==>
              text == Bounded(Join(Lines(AsArray(Get(params, "messages")).value, number), "\n"))
  {
    var builder := new BoundedText(MAX_TEXT);
    match endpoint {
      case Complete => builder.AppendPrompt(Get(params, "prompt"), number, "", MAX_TEXT);
      case Embed => builder.AppendPrompt(Get(params, "input"), number, "", MAX_TEXT);
      case CreateModelResponse => builder.AppendPrompt(Get(params, "input"), number, "", MAX_TEXT);
      case _ => builder.AppendMessages(Get(params, "messages"), number, "", MAX_TEXT);
    }
    text := builder.out;
    if IsPrompt(params, endpoint) { PromptIsTrimmed(PromptOf(params, endpoint), number); }
    if IsConversation(params, endpoint) { ConversationIsJoinedLines(AsArray(Get(params, "messages")).value, number); }
  }

  /** `limit_chars`. */
  method LimitChars(text: string, max: nat) returns (r: string)
    ensures r == Take(text, max)
  {
    var builder := new BoundedText(max);
    builder.Push(text, "", max);
    assert "" + text == text;
    r := builder.out;
  }
}
