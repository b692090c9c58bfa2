/**
 The stream adapter with its translators (`StreamTransform::apply` and `SseTransformStream` in
 `src/middleware/stream_transform.rs`).  Parsing an event and writing one out are arguments.
 */
module AdaptedStreams {
  import opened Basics
  import opened Sequences
  import opened SseAdapter
  import Chat = ChatStream
  import Messages = MessagesStream

  /** The payloads of a stream that are not empty, parsed. */
  function Parsed<I>(parse: Bytes -> I, events: seq<Bytes>): seq<I> {
    if events == [] then [] else [parse(events[0])] + Parsed(parse, events[1..])
  }

  function Joined(parts: seq<Bytes>): Bytes {
    if parts == [] then [] else parts[0] + Joined(parts[1..])
  }

  // ----- to Anthropic messages -----

  /** `sse_event`, event by event. */
  function Written(write: Messages.Event -> Bytes, events: seq<Messages.Event>): Bytes {
    if events == [] then [] else write(events[0]) + Written(write, events[1..])
  }

  /** An event that translates to nothing puts nothing out; none is rejected. */
  ghost function ToMessages(parse: Bytes -> Messages.Input, write: Messages.Event -> Bytes, fallbackId: string)
    : Translator<Messages.State>
  {
    (event, s) =>
      var input := parse(event);
      var out := Written(write, Messages.Translate(s, input, fallbackId));
      Step(Messages.After(s, input), if out == [] then None else Some(out))
  }

  lemma {:induction false} WrittenAppend(write: Messages.Event -> Bytes, a: seq<Messages.Event>, b: seq<Messages.Event>)
    ensures Written(write, a + b) == Written(write, a) + Written(write, b)
  {
    if a == [] {
      assert a + b == b;
    } else {
      assert (a + b)[1..] == a[1..] + b;
      WrittenAppend(write, a[1..], b);
      Assoc(write(a[0]), Written(write, a[1..]), Written(write, b));
    }
  }

  lemma {:induction false} FoldTranslates(parse: Bytes -> Messages.Input, write: Messages.Event -> Bytes,
      fallbackId: string,
                         s: Messages.State, events: seq<Bytes>)
    ensures Joined(Fold(ToMessages(parse, write, fallbackId), s, events).outputs)
            == Written(write, Messages.TranslateAll(s, Parsed(parse, NonEmpty(events)), fallbackId))
    decreases |events|
  {
    if events != [] {
      var rest := NonEmpty(events[1..]);
      if events[0] == [] {
        assert NonEmpty(events) == rest;
        FoldTranslates(parse, write, fallbackId, s, events[1..]);
      } else {
        var input := parse(events[0]);
        var next := Messages.After(s, input);
        assert NonEmpty(events)[0] == events[0] && NonEmpty(events)[1..] == rest;
        assert Parsed(parse, NonEmpty(events))[1..] == Parsed(parse, rest);
        FoldTranslates(parse, write, fallbackId, next, events[1..]);
        WrittenAppend(write, Messages.Translate(s, input, fallbackId),
                      Messages.TranslateAll(next, Parsed(parse, rest), fallbackId));
        OneMore(Written(write, Messages.Translate(s, input, fallbackId)),
                Fold(ToMessages(parse, write, fallbackId), next, events[1..]).outputs);
      }
    }
  }

  lemma OneMore(out: Bytes, rest: seq<Bytes>)
    ensures Joined((if out == [] then [] else [out]) + rest) == out + Joined(rest)
  {
    assert out != [] ==> ([out] + rest)[1..] == rest;
    assert out == [] ==> [] + rest == rest;
  }

  /** However the upstream cuts its bytes, what comes out is the translation of the events in
      them, one state carried through from the first to the last. */
  lemma MessagesComeThrough(parse: Bytes -> Messages.Input, write: Messages.Event -> Bytes, fallbackId: string,
                            split: Bytes, upstream: seq<Poll>)
    ensures var events := NonEmpty(AllEvents(Delivered(upstream).0, split, Delivered(upstream).1));
      Joined(Emitted(ToMessages(parse, write, fallbackId), split, Messages.INITIAL, [], upstream))
      == Written(write, Messages.TranslateAll(Messages.INITIAL, Parsed(parse, events), fallbackId))
  {
    var t, r := ToMessages(parse, write, fallbackId), Delivered(upstream);
    ChunkingInvariance(t, split, Messages.INITIAL, [], upstream);
    assert [] + r.0 == r.0;
    FoldTranslates(parse, write, fallbackId, Messages.INITIAL, AllEvents(r.0, split, r.1));
  }

  // ----- to OpenAI chat -----

  /** A payload that does not parse is rejected. */
  function ToChat(parse: Bytes -> Chat.Input, write: Chat.Output -> Bytes): Translator<Chat.State> {
    (event, s) =>
      var input := parse(event);
      match Chat.Translate(s, input)
      case Rejected => SseAdapter.Rejected
      case Nothing => Step(Chat.After(s, input), None)
      case out => Step(Chat.After(s, input), Some(write(out)))
  }

  /** What is put out for a translation: neither the silence nor the rejection shows. */
  function Shown(write: Chat.Output -> Bytes, outputs: seq<Chat.Output>): seq<Bytes> {
    if outputs == [] then []
    else (if outputs[0].Nothing? || outputs[0].Rejected? then [] else [write(outputs[0])]) + Shown(write, outputs[1..])
  }

  lemma {:induction false} FoldShows(parse: Bytes -> Chat.Input, write: Chat.Output -> Bytes, s: Chat.State,
      events: seq<Bytes>)
    ensures Fold(ToChat(parse, write), s, events).outputs
            == Shown(write, Chat.TranslateAll(s, Parsed(parse, NonEmpty(events))))
    decreases |events|
  {
    if events != [] {
      var rest := NonEmpty(events[1..]);
      if events[0] == [] {
        assert NonEmpty(events) == rest;
        FoldShows(parse, write, s, events[1..]);
      } else {
        var input := parse(events[0]);
        var first := Chat.Translate(s, input);
        assert NonEmpty(events)[0] == events[0] && NonEmpty(events)[1..] == rest;
        assert Parsed(parse, NonEmpty(events))[1..] == Parsed(parse, rest);
        var later := if input.Malformed? then [] else Chat.TranslateAll(Chat.After(s, input), Parsed(parse, rest));
        assert Chat.TranslateAll(s, Parsed(parse, NonEmpty(events))) == [first] + later;
        assert ([first] + later)[1..] == later;
        if !input.Malformed? { FoldShows(parse, write, Chat.After(s, input), events[1..]); }
      }
    }
  }

  lemma ChatComesThrough(parse: Bytes -> Chat.Input, write: Chat.Output -> Bytes, split: Bytes, upstream: seq<Poll>)
    ensures var events := NonEmpty(AllEvents(Delivered(upstream).0, split, Delivered(upstream).1));
      Emitted(ToChat(parse, write), split, Chat.INITIAL, [], upstream)
      == Shown(write, Chat.TranslateAll(Chat.INITIAL, Parsed(parse, events)))
  {
    var r := Delivered(upstream);
    ChunkingInvariance(ToChat(parse, write), split, Chat.INITIAL, [], upstream);
    assert [] + r.0 == r.0;
    FoldShows(parse, write, Chat.INITIAL, AllEvents(r.0, split, r.1));
  }
}
