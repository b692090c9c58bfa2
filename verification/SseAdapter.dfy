/**
 The byte-level stream adapter (`SseTransformStream` in
 `src/middleware/stream_transform.rs`): it splits the upstream bytes into events at a
 delimiter and runs a stateful translator over them, under arbitrary chunking.  The
 translator, its state and the UTF-8 decoding in front of it are arguments.
 */
module SseAdapter {
  import opened Basics
  import opened Sequences

  type Bytes = seq<Byte>

  /** One translated event: output or nothing, or a rejection that ends the stream. */
  datatype Step<S> = Step(state: S, out: Option<Bytes>) | Rejected

  type Translator<!S> = (Bytes, S) -> Step<S>

  // ----- splitting -----

  /** `find_subslice`: the first position of the needle. */
  function Find(haystack: Bytes, needle: Bytes): (r: Option<nat>)
    ensures r.Some? ==> r.value + |needle| <= |haystack| && needle != []
  {
    if needle == [] || |haystack| < |needle| then None
    else if haystack[..|needle|] == needle then Some(0)
    else
      var r := Find(haystack[1..], needle);
      if r.Some? then Some(r.value + 1) else None
  }

  predicate At(haystack: Bytes, needle: Bytes, i: nat) {
    i + |needle| <= |haystack| && haystack[i..i + |needle|] == needle
  }

  lemma AtNext(haystack: Bytes, needle: Bytes, i: nat)
    requires haystack != []
    ensures At(haystack[1..], needle, i) <==> At(haystack, needle, i + 1)
  {
    if i + 1 + |needle| <= |haystack| {
      assert haystack[1..][i..i + |needle|] == haystack[i + 1..i + 1 + |needle|];
    }
  }

  lemma {:induction false} FoundThere(haystack: Bytes, needle: Bytes)
    requires Find(haystack, needle).Some?
    ensures At(haystack, needle, Find(haystack, needle).value)
  {
    if haystack[..|needle|] == needle {
      assert haystack[0..0 + |needle|] == haystack[..|needle|];
    } else {
      FoundThere(haystack[1..], needle);
      AtNext(haystack, needle, Find(haystack[1..], needle).value);
    }
  }

  lemma {:induction false} NoneEarlier(haystack: Bytes, needle: Bytes, i: nat)
    requires needle != [] && At(haystack, needle, i)
    ensures Find(haystack, needle).Some? && Find(haystack, needle).value <= i
  {
    if haystack[..|needle|] != needle {
      assert haystack[0..0 + |needle|] == haystack[..|needle|];
      AtNext(haystack, needle, i - 1);
      NoneEarlier(haystack[1..], needle, i - 1);
    }
  }

  /** `Find` is the least position at which the needle occurs. */
  lemma FindIsFirst(haystack: Bytes, needle: Bytes)
    requires needle != []
    ensures Find(haystack, needle).Some? ==> At(haystack, needle, Find(haystack, needle).value)
    ensures forall i: nat :: At(haystack, needle, i) ==>
        Find(haystack, needle).Some? && Find(haystack, needle).value <= i
  {
    if Find(haystack, needle).Some? { FoundThere(haystack, needle); }
    forall i: nat | At(haystack, needle, i)
      ensures Find(haystack, needle).Some? && Find(haystack, needle).value <= i
    {
      NoneEarlier(haystack, needle, i);
    }
  }

  /** A delimiter found stays the first one when more bytes arrive. */
  lemma FindStable(b: Bytes, more: Bytes, needle: Bytes)
    requires Find(b, needle).Some?
    ensures Find(b + more, needle) == Find(b, needle)
  {
    FindIsFirst(b, needle);
    FindIsFirst(b + more, needle);
    var p := Find(b, needle).value;
    assert (b + more)[p..p + |needle|] == b[p..p + |needle|];
    assert At(b + more, needle, p);
    var q := Find(b + more, needle).value;
    assert b[q..q + |needle|] == (b + more)[q..q + |needle|];
    assert At(b, needle, q);
  }

  /** The complete events in `b`, and what follows the last of them. */
  function Events(b: Bytes, split: Bytes): (r: (seq<Bytes>, Bytes))
    ensures Find(r.1, split) == None
    decreases |b|
  {
    var pos := Find(b, split);
    if pos.None? then ([], b)
    else
      var rest := Events(b[pos.value + |split|..], split);
      ([b[..pos.value]] + rest.0, rest.1)
  }

  /** Splitting in two goes is splitting at once, wherever the cut falls. */
  lemma {:induction false} EventsAppend(b: Bytes, more: Bytes, split: Bytes)
    ensures Events(b + more, split) == (Events(b, split).0 + Events(Events(b, split).1 + more, split).0,
                                        Events(Events(b, split).1 + more, split).1)
    decreases |b|
  {
    var pos := Find(b, split);
    if pos.Some? {
      FindStable(b, more, split);
      var n := pos.value + |split|;
      var head, tail := [b[..pos.value]], b[n..];
      assert (b + more)[n..] == tail + more && (b + more)[..pos.value] == b[..pos.value];
      EventsAppend(tail, more, split);
      assert Events(b + more, split) == (head + Events(tail + more, split).0, Events(tail + more, split).1);
      Assoc(head, Events(tail, split).0, Events(Events(tail, split).1 + more, split).0);
    } else {
      assert [] + Events(b + more, split).0 == Events(b + more, split).0;
    }
  }

  /** Events, each with its delimiter behind it. */
  function Delimited(events: seq<Bytes>, split: Bytes): Bytes {
    if events == [] then [] else events[0] + split + Delimited(events[1..], split)
  }

  /** An event ends at the first delimiter after it starts. */
  predicate EndsAtFirst(event: Bytes, split: Bytes) {
    Find(event + split, split) == Some(|event|)
  }

  /** Splitting loses nothing: the events with their delimiters, and what is left, are the
      bytes. */
  lemma {:induction false} EventsRebuild(b: Bytes, split: Bytes)
    ensures Delimited(Events(b, split).0, split) + Events(b, split).1 == b
    ensures forall e :: e in Events(b, split).0 ==> EndsAtFirst(e, split)
    decreases |b|
  {
    var pos := Find(b, split);
    if pos.Some? {
      var event, rest := b[..pos.value], b[pos.value + |split|..];
      FirstStays(b, split, pos.value);
      EventsRebuild(rest, split);
      Assoc(event + split, Delimited(Events(rest, split).0, split), Events(rest, split).1);
      assert ([event] + Events(rest, split).0)[1..] == Events(rest, split).0;
    }
  }

  lemma FirstStays(b: Bytes, split: Bytes, pos: nat)
    requires Find(b, split) == Some(pos)
    ensures b == b[..pos] + split + b[pos + |split|..] && EndsAtFirst(b[..pos], split)
  {
    var event, rest := b[..pos], b[pos + |split|..];
    CutAtDelimiter(b, split, pos);
    FoundAtEnd(event, split);
    FindStable(event + split, rest, split);
  }

  lemma CutAtDelimiter(b: Bytes, split: Bytes, pos: nat)
    requires Find(b, split) == Some(pos)
    ensures b == b[..pos] + split + b[pos + |split|..]
  {
    FindIsFirst(b, split);
    assert b == b[..pos] + b[pos..pos + |split|] + b[pos + |split|..];
  }

  lemma FoundAtEnd(x: Bytes, split: Bytes)
    requires split != []
    ensures Find(x + split, split).Some?
  {
    FindIsFirst(x + split, split);
    assert (x + split)[|x|..|x| + |split|] == split;
    assert At(x + split, split, |x|);
  }

  // ----- translating -----

  datatype Folded<S> = Folded(outputs: seq<Bytes>, state: S, ok: bool)

  /** Run the translator over events; empty ones are skipped, a rejection stops the run. */
  function Fold<S>(t: Translator<S>, state: S, events: seq<Bytes>): Folded<S> {
    if events == [] then Folded([], state, true)
    else if events[0] == [] then Fold(t, state, events[1..])
    else match t(events[0], state)
      case Rejected => Folded([], state, false)
      case Step(next, out) =>
        var rest := Fold(t, next, events[1..]);
        Folded((if out.Some? then [out.value] else []) + rest.outputs, rest.state, rest.ok)
  }

  function NonEmpty(events: seq<Bytes>): seq<Bytes> {
    if events == [] then [] else (if events[0] == [] then [] else [events[0]]) + NonEmpty(events[1..])
  }

  /** The states a translator goes through: each is what it returns on the next event in the
      one before, up to the first rejection. */
  ghost predicate IsRun<S>(t: Translator<S>, events: seq<Bytes>, states: seq<S>) {
    && 1 <= |states| <= |events| + 1
    && (forall i {:trigger states[i]} :: 0 <= i < |states| - 1 ==>
          t(events[i], states[i]).Step? && states[i + 1] == t(events[i], states[i]).state)
    && (|states| <= |events| ==> t(events[|states| - 1], states[|states| - 1]).Rejected?)
  }

  /** What it says on the way. */
  function Said<S>(t: Translator<S>, events: seq<Bytes>, states: seq<S>): seq<Bytes>
    requires 1 <= |states| <= |events| + 1
  {
    if |states| == 1 then []
    else (match t(events[0], states[0])
          case Step(_, Some(out)) => [out]
          case _ => []) + Said(t, events[1..], states[1..])
  }

  lemma {:induction false} FoldIsRun<S>(t: Translator<S>, state: S, events: seq<Bytes>) returns (states: seq<S>)
    ensures IsRun(t, NonEmpty(events), states) && states[0] == state
    ensures Fold(t, state, events).outputs == Said(t, NonEmpty(events), states)
    decreases |events|
  {
    if events == [] {
      states := [state];
    } else if events[0] == [] {
      assert NonEmpty(events) == NonEmpty(events[1..]);
      states := FoldIsRun(t, state, events[1..]);
    } else {
      var xs := NonEmpty(events);
      assert xs[0] == events[0] && xs[1..] == NonEmpty(events[1..]);
      match t(events[0], state) {
        case Rejected => states := [state];
        case Step(next, out) =>
          var rest := FoldIsRun(t, next, events[1..]);
          states := [state] + rest;
          RunLonger(t, xs, state, rest);
      }
    }
  }

  lemma RunLonger<S>(t: Translator<S>, events: seq<Bytes>, state: S, rest: seq<S>)
    requires events != [] && IsRun(t, events[1..], rest)
    requires t(events[0], state).Step? && t(events[0], state).state == rest[0]
    ensures IsRun(t, events, [state] + rest) && ([state] + rest)[1..] == rest
  {
    var states := [state] + rest;
    assert states[1..] == rest;
    forall i {:trigger states[i]} | 0 <= i < |states| - 1
      ensures t(events[i], states[i]).Step? && states[i + 1] == t(events[i], states[i]).state
    {
      if i > 0 { assert states[i] == rest[i - 1] && events[i] == events[1..][i - 1]; }
    }
    assert |rest| <= |events| - 1 ==> events[|rest|] == events[1..][|rest| - 1];
  }

  lemma {:induction false} FoldAppend<S>(t: Translator<S>, state: S, xs: seq<Bytes>, ys: seq<Bytes>)
    ensures var f := Fold(t, state, xs);
      Fold(t, state, xs + ys) ==
      if f.ok then Folded(f.outputs + Fold(t, f.state, ys).outputs, Fold(t, f.state, ys).state, Fold(t, f.state, ys).ok)
          else f
  {
    if xs == [] {
      assert xs + ys == ys;
    } else {
      assert (xs + ys)[1..] == xs[1..] + ys;
      if xs[0] == [] {
        FoldAppend(t, state, xs[1..], ys);
      } else if t(xs[0], state).Step? {
        FoldAppend(t, t(xs[0], state).state, xs[1..], ys);
      }
    }
  }

  // ----- the stream -----

  /** How the upstream ends: properly, with an error, or not yet. */
  datatype End = Eof | Failed | Open

  /** The events a stream of `bytes` with this end amounts to: a residual without its
      delimiter counts as an event only at a proper end. */
  function AllEvents(bytes: Bytes, split: Bytes, end: End): seq<Bytes> {
    var e := Events(bytes, split);
    e.0 + if end == Eof && e.1 != [] then [e.1] else []
  }

  /** The reference: split everything, then translate. */
  function Outputs<S>(t: Translator<S>, split: Bytes, state: S, bytes: Bytes, end: End): seq<Bytes> {
    Fold(t, state, AllEvents(bytes, split, end)).outputs
  }

  datatype Poll = Chunk(bytes: Bytes) | Ended | Broken | NotReady

  /** The bytes an upstream delivers before it ends, and how it ends. */
  function Delivered(upstream: seq<Poll>): (Bytes, End) {
    if upstream == [] then ([], Open)
    else match upstream[0]
      case Chunk(b) => var r := Delivered(upstream[1..]); (b + r.0, r.1)
      case Ended => ([], Eof)
      case Broken => ([], Failed)
      case NotReady => Delivered(upstream[1..])
  }

  /** What the adapter emits as the polls come in, with `buffer` left from before. */
  function Emitted<S>(t: Translator<S>, split: Bytes, state: S, buffer: Bytes, upstream: seq<Poll>): seq<Bytes>
    decreases |upstream|
  {
    if upstream == [] then []
    else match upstream[0]
      case Chunk(b) =>
        var e := Events(buffer + b, split);
        var f := Fold(t, state, e.0);
        f.outputs + if f.ok then Emitted(t, split, f.state, e.1, upstream[1..]) else []
      case Ended => if buffer == [] then [] else Fold(t, state, [buffer]).outputs
      case Broken => []
      case NotReady => Emitted(t, split, state, buffer, upstream[1..])
  }

  /** Bytes already split off are translated the same whether or not more were known. */
  lemma OutputsSplit<S>(t: Translator<S>, split: Bytes, state: S, bytes: Bytes, more: Bytes, end: End)
    ensures var e := Events(bytes, split);
      var f := Fold(t, state, e.0);
      Outputs(t, split, state, bytes + more, end) == f.outputs + if f.ok
          then Outputs(t, split, f.state, e.1 + more, end) else []
  {
    var e := Events(bytes, split);
    EventsAppend(bytes, more, split);
    assert AllEvents(bytes + more, split, end) == e.0 + AllEvents(e.1 + more, split, end);
    FoldAppend(t, state, e.0, AllEvents(e.1 + more, split, end));
  }

  lemma ResidualLast<S>(t: Translator<S>, split: Bytes, state: S, buffer: Bytes)
    requires Find(buffer, split) == None
    ensures buffer + [] == buffer
    ensures Outputs(t, split, state, buffer, Eof) == if buffer == [] then [] else Fold(t, state, [buffer]).outputs
  {
    assert AllEvents(buffer, split, Eof) == if buffer == [] then [] else [buffer];
  }

  /** Chunking invariance: what is emitted depends only on the bytes delivered and on how
      they end. */
  lemma {:induction false} ChunkingInvariance<S>(t: Translator<S>, split: Bytes, state: S, buffer: Bytes,
      upstream: seq<Poll>)
    requires Find(buffer, split) == None
    ensures Emitted(t, split, state, buffer, upstream)
            == Outputs(t, split, state, buffer + Delivered(upstream).0, Delivered(upstream).1)
    decreases |upstream|
  {
    if upstream == [] {
      assert buffer + [] == buffer;
    } else {
      match upstream[0]
      case Chunk(b) =>
        var r := Delivered(upstream[1..]);
        var e := Events(buffer + b, split);
        OutputsSplit(t, split, state, buffer + b, r.0, r.1);
        Assoc(buffer, b, r.0);
        ChunkingInvariance(t, split, Fold(t, state, e.0).state, e.1, upstream[1..]);
      case Ended => ResidualLast(t, split, state, buffer);
      case Broken => assert buffer + [] == buffer;
      case NotReady => ChunkingInvariance(t, split, state, buffer, upstream[1..]);
    }
  }

  /** An upstream error cuts the output: it is a prefix of what any continuation gives. */
  lemma ErrorGivesPrefix<S>(t: Translator<S>, split: Bytes, state: S, bytes: Bytes, more: Bytes, end: End)
    ensures Outputs(t, split, state, bytes, Failed) <= Outputs(t, split, state, bytes + more, end)
  {
    OutputsSplit(t, split, state, bytes, more, end);
    assert AllEvents(bytes, split, Failed) == Events(bytes, split).0;
  }

  class SseTransformStream<S> {
    const transform: Translator<S>
    const split: Bytes
    var inner: seq<Poll>     // what the upstream will answer, poll by poll
    var state: S
    var buffer: Bytes
    var queue: seq<Bytes>
    var innerDone: bool

    ghost predicate Valid()
      reads this
    {
      !innerDone ==> Find(buffer, split) == None
    }

    /** Everything the consumer has yet to see. */
    ghost function Future(): seq<Bytes>
      reads this
    {
      queue + if innerDone then [] else Emitted(transform, split, state, buffer, inner)
    }

    constructor (inner: seq<Poll>, transform: Translator<S>, split: Bytes, state: S)
      ensures Valid() && Future() == Outputs(transform, split, state, Delivered(inner).0, Delivered(inner).1)
      ensures var events := NonEmpty(AllEvents(Delivered(inner).0, split, Delivered(inner).1));
        exists states :: IsRun(transform, events, states) && states[0] == state
            && Future() == Said(transform, events, states)
    {
      this.inner, this.transform, this.split, this.state := inner, transform, split, state;
      buffer, queue, innerDone := [], [], false;
      new;
      ChunkingInvariance(transform, split, state, [], inner);
      assert [] + Delivered(inner).0 == Delivered(inner).0;
      ghost var states := FoldIsRun(transform, state, AllEvents(Delivered(inner).0, split, Delivered(inner).1));
    }

    /** `emit`: false when the translator rejects the event. */
    method Emit(event: Bytes) returns (ok: bool)
      modifies this`queue, this`state
      ensures var f := Fold(transform, old(state), [event]);
        ok == f.ok && queue == old(queue) + f.outputs && state == f.state
      ensures event != [] ==> match transform(event, old(state))
        case Rejected => !ok && queue == old(queue) && state == old(state)
        case Step(next, out) => ok && state == next && queue == old(queue) + if out.Some? then [out.value] else []
    {
      if event == [] { return true; }
      match transform(event, state) {
        case Rejected => ok := false;
        case Step(next, out) =>
          state := next;
          if out.Some? { queue := queue + [out.value]; }
          ok := true;
      }
    }

    /** `drain_buffer`: take every complete event out of the buffer, stop at a rejection. */
    method DrainBuffer()
      requires !innerDone
      modifies this`queue, this`state, this`buffer, this`innerDone
      ensures Valid()
      ensures Folded(queue, state, !innerDone)
          == Joined(old(queue), Fold(transform, old(state), Events(old(buffer), split).0))
      ensures buffer == if innerDone then [] else Events(old(buffer), split).1
    {
      ghost var whole := Events(buffer, split);
      ghost var goal := Joined(queue, Fold(transform, state, whole.0));
      while true
        invariant !innerDone
        invariant Events(buffer, split).1 == whole.1
        invariant Joined(queue, Fold(transform, state, Events(buffer, split).0)) == goal
        decreases |buffer|
      {
        var pos := Find(buffer, split);
        if pos.None? {
          assert queue + [] == queue;
          return;
        }
        var ok := EmitNext(pos.value);
        if !ok {
          innerDone := true;
          buffer := [];
          return;
        }
      }
    }

    /** Cut the first event out of the buffer and translate it. */
    method EmitNext(pos: nat) returns (ok: bool)
      requires Find(buffer, split) == Some(pos)
      modifies this`queue, this`state, this`buffer
      ensures |buffer| < |old(buffer)| && Events(buffer, split).1 == Events(old(buffer), split).1
      ensures (if ok then Joined(queue, Fold(transform, state, Events(buffer, split).0))
          else Folded(queue, state, false))
              == Joined(old(queue), Fold(transform, old(state), Events(old(buffer), split).0))
    {
      var event := buffer[..pos];
      buffer := buffer[pos + |split|..];
      ghost var rest := Events(buffer, split).0;
      assert Events(old(buffer), split).0 == [event] + rest;
      JoinStep(transform, queue, state, event, rest);
      ok := Emit(event);
    }

    /** `poll_next`: hand out queued output, or poll the upstream until there is some. */
    method PollNext() returns (pending: bool, item: Option<Bytes>)
      requires Valid()
      modifies this
      ensures Valid()
      ensures !pending && item.Some? ==> old(Future()) == [item.value] + Future()
      ensures !pending && item.None? ==> old(Future()) == [] && Future() == []
      ensures pending ==> Future() == old(Future())
    {
      while true
        invariant Valid() && Future() == old(Future())
        decreases |inner|, |queue|, !innerDone
      {
        if queue != [] {
          var bytes := queue[0];
          queue := queue[1..];
          return false, Some(bytes);
        }
        if innerDone { return false, None; }
        if inner == [] { return true, None; }
        var poll := inner[0];
        assert inner == [poll] + inner[1..];
        inner := inner[1..];
        if poll.NotReady? { return true, None; }
        Absorb(poll);
      }
    }

    /** One answer of the upstream: more bytes, its end, or its failure. */
    method Absorb(poll: Poll)
      requires Valid() && !innerDone && queue == [] && !poll.NotReady?
      modifies this`queue, this`state, this`buffer, this`innerDone
      ensures Valid()
      ensures Future() == Emitted(transform, split, old(state), old(buffer), [poll] + inner)
    {
      assert ([poll] + inner)[1..] == inner;
      match poll {
        case Chunk(bytes) =>
          buffer := buffer + bytes;
          DrainBuffer();
        case Ended =>
          innerDone := true;
          if buffer != [] {
            var residual := buffer;
            buffer := [];
            var _ := Emit(residual);
          }
        case Broken =>
          innerDone := true;
          buffer := [];
      }
    }
  }

  /** Translating one more event moves its output to the queue. */
  lemma JoinStep<S>(t: Translator<S>, queue: seq<Bytes>, state: S, event: Bytes, rest: seq<Bytes>)
    ensures var f := Fold(t, state, [event]);
      Joined(queue, Fold(t, state, [event] + rest)) ==
      if f.ok then Joined(queue + f.outputs, Fold(t, f.state, rest)) else Joined(queue, f)
  {
    FoldAppend(t, state, [event], rest);
    var f := Fold(t, state, [event]);
    Assoc(queue, f.outputs, Fold(t, f.state, rest).outputs);
  }

  ghost function Joined<S>(before: seq<Bytes>, f: Folded<S>): Folded<S> {
    Folded(before + f.outputs, f.state, f.ok)
  }
}
