/**
 The stop reason across both stream translators of `src/middleware/stream_transform.rs`: from
 Anthropic to OpenAI and back.
 */
module FinishReasons {
  import opened Basics
  import Chat = ChatStream
  import Back = MessagesStream

  /** The Anthropic stop reason that comes back: `max_tokens` and `tool_use` as they are,
      anything else as `end_turn`. */
  function Kept(stop: Option<string>): string {
    if stop == Some("max_tokens") || stop == Some("tool_use") then stop.value else "end_turn"
  }

  lemma ReasonReturns(stop: Option<string>, finish: string)
    requires Chat.Reports(stop, finish)
    ensures !Back.IsErrorFinish(Some(finish)) && Back.MapFinishReason(Some(finish)) == Kept(stop)
  {
    assert !Back.EndsWith("length", "_error") && !Back.EndsWith("tool_calls", "_error")
        && !Back.EndsWith("stop", "_error");
  }

  /** Take any Anthropic stream, and any OpenAI stream whose last finish reason is the one its
      translation shows.  Translated back, that stream ends with the stop reason of the first. */
  lemma StopReasonSurvives(inputs: seq<Chat.Input>, body: seq<Back.Input>, fallbackId: string)
    requires Chat.LastStop(inputs).Some?
    requires Back.LastSome(Back.Map(Back.Finish, body))
        == Chat.SeeAll(Chat.NOTHING, Chat.TranslateAll(Chat.INITIAL, inputs)).finish
    ensures var out := Back.TranslateAll(Back.INITIAL, body + [Back.Done], fallbackId);
      && |out| >= 2 && out[|out| - 1] == Back.MessageStop && out[|out| - 2].MessageDelta?
      && out[|out| - 2].stopReason == Kept(Chat.LastStop(inputs).value)
  {
    Chat.StreamReportsStop(Chat.INITIAL, Chat.NOTHING, inputs);
    var finish := Chat.SeeAll(Chat.NOTHING, Chat.TranslateAll(Chat.INITIAL, inputs)).finish;
    ReasonReturns(Chat.LastStop(inputs).value, finish.value);
    Back.FinalReport(body, fallbackId);
    var out := Back.TranslateAll(Back.INITIAL, body + [Back.Done], fallbackId);
    assert out[|out| - 2..][0] == out[|out| - 2] && out[|out| - 2..][1] == out[|out| - 1];
  }
}
