/** The AI-psychiatrist chat screen (app/functions/psychiatrist.tsx): the message list, the input
    line, and the history handed to the chat service with each message. */
module Psychiatrist {
  import opened Common
  import Text
  import Seqs

  /** A message on screen; `sender` is "user" or "ai". */
  datatype ChatMessage = ChatMessage(id: int, text: string, sender: string)

  /** A history item sent to the chat service; `role` is "user" or "assistant". */
  datatype HistoryMessage = HistoryMessage(role: string, content: string)

  /** The chat service's answer as the screen reads it. */
  datatype ChatResponse = ChatResponse(success: bool, message: Option<string>, error: Option<string>)

  /** How the service call ends: an answer, or a thrown error. */
  datatype CallOutcome = Answered(response: ChatResponse) | CallThrew

  const GREETING: string := "Hello, I'm your AI Psychiatrist. How are you feeling today?"
  const FALLBACK_REPLY: string := "Sorry, something went wrong."
  const UNREACHABLE_REPLY: string := "Failed to reach the AI service."

  /** The list the screen starts with: the AI's greeting, id 1. */
  const InitialMessages: seq<ChatMessage> := [ChatMessage(1, GREETING, "ai")]

  predicate FromUser(m: ChatMessage)
  {
    m.sender == "user"
  }

  /** `m.sender === 'user' ? 'user' : 'assistant'`. */
  function ToHistory(m: ChatMessage): (h: HistoryMessage)
    ensures h.content == m.text
    ensures h.role == "user" <==> m.sender == "user"
    ensures h.role in {"user", "assistant"}
  {
    HistoryMessage(if m.sender == "user" then "user" else "assistant", m.text)
  }

  function MapToHistory(ms: seq<ChatMessage>): (hs: seq<HistoryMessage>)
    ensures |hs| == |ms|
    ensures forall i :: 0 <= i < |ms| ==> hs[i] == ToHistory(ms[i])
  {
    seq(|ms|, i requires 0 <= i < |ms| => ToHistory(ms[i]))
  }

  /** The history for a send: the combined list from its first user message on (all of it when
      there is none), each message mapped to a role and its text. */
  function HistoryFor(combined: seq<ChatMessage>): (h: seq<HistoryMessage>)
    ensures |h| <= |combined|
    ensures h == MapToHistory(combined[|combined| - |h|..])
    ensures (exists i :: 0 <= i < |combined| && FromUser(combined[i])) ==>
              h != [] && h[0].role == "user"
              && forall j :: 0 <= j < |combined| - |h| ==> !FromUser(combined[j])
  {
    match Seqs.FindIndex(combined, FromUser)
    case Some(k) => MapToHistory(combined[k..])
    case None => MapToHistory(combined)
  }

  /** The history sent with a new message ends with that message and starts with a user turn. */
  lemma HistoryEndsWithNewMessage(messages: seq<ChatMessage>, newMessage: ChatMessage)
    requires newMessage.sender == "user"
    ensures var h := HistoryFor(messages + [newMessage]);
      && h != [] && h[0].role == "user"
      && h[|h| - 1] == HistoryMessage("user", newMessage.text)
  {
    var combined := messages + [newMessage];
    assert FromUser(combined[|combined| - 1]);
    var h := HistoryFor(combined);
    assert h[|h| - 1] == ToHistory(combined[|combined| - 1]);
  }

  /** `res.success && res.message`: a success carrying a non-empty message. */
  predicate Usable(res: ChatResponse)
  {
    res.success && res.message.Some? && res.message.value != []
  }

  /** The AI reply's text: the answer on success with a non-empty message, otherwise the reported
      error when non-empty or the fallback, and a fixed text when the call throws. */
  function ReplyText(outcome: CallOutcome): (text: string)
    ensures outcome.CallThrew? ==> text == UNREACHABLE_REPLY
    ensures outcome.Answered? && Usable(outcome.response) ==> text == outcome.response.message.value
    ensures text != []
  {
    match outcome
    case CallThrew => UNREACHABLE_REPLY
    case Answered(res) =>
      if Usable(res) then res.message.value
      else if res.error.Some? && res.error.value != [] then res.error.value
      else FALLBACK_REPLY
  }

  /** The reply shown when the service answers without a usable message. */
  lemma FailedAnswerShowsError(res: ChatResponse)
    requires !Usable(res)
    ensures res.error.Some? && res.error.value != [] ==> ReplyText(Answered(res)) == res.error.value
    ensures (res.error.None? || res.error.value == []) ==> ReplyText(Answered(res)) == FALLBACK_REPLY
  {
  }

  /** The screen's state. */
  class ChatScreen {
    var messages: seq<ChatMessage>
    var input: string

    constructor ()
      ensures messages == InitialMessages && input == ""
    {
      messages := InitialMessages;
      input := "";
    }

    /** handleSend, together with the reply that arrives for it: a blank input does nothing;
        otherwise the trimmed text is appended as a user message, the input cleared, the history
        sent and exactly one AI reply appended. `now` is the clock in milliseconds when the message
        is sent, `replyNow` its second reading when the reply arrives; the reply's id is one more. */
    method HandleSend(now: int, replyNow: int, outcome: CallOutcome) returns (sent: Option<seq<HistoryMessage>>)
      modifies this
      ensures Text.IsBlank(old(input)) ==> sent.None? && messages == old(messages) && input == old(input)
      ensures !Text.IsBlank(old(input)) ==>
        var newMessage := ChatMessage(now, Text.Trim(old(input)), "user");
        && sent == Some(HistoryFor(old(messages) + [newMessage]))
        && messages == old(messages) + [newMessage, ChatMessage(replyNow + 1, ReplyText(outcome), "ai")]
        && input == ""
    {
      if Text.IsBlank(input) {
        return None;
      }
      var newMessage := ChatMessage(now, Text.Trim(input), "user");
      var before := messages;
      messages := messages + [newMessage];
      input := "";
      var history := HistoryFor(before + [newMessage]);
      var aiResponse := ChatMessage(replyNow + 1, ReplyText(outcome), "ai");
      messages := messages + [aiResponse];
      sent := Some(history);
    }
  }
}
