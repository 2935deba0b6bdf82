/**
 The conversation log and the backend exchange: the message record, the
 initial greeting, the history payload built from the log, the chat request,
 and the assistant message appended after the exchange (the backend's reply,
 or a local fallback that quotes the transcript).
 */
module Conversation {
  import opened JsText

  datatype Option<T> = None | Some(value: T)

  /** Who wrote a message: the person speaking, or the assistant Isha. */
  datatype Sender = User | Isha

  /** A message id: a number (generated from the clock) or whatever the backend returned. */
  datatype MessageId = NumId(n: int) | StrId(s: string)

  /** A JavaScript `Date`: a point in time in milliseconds, or an Invalid Date. */
  datatype Timestamp = At(ms: int) | InvalidDate

  datatype Message = Message(id: MessageId, text: string, sender: Sender, timestamp: Timestamp)

  /** One entry of `conversation_history`; `timestamp` is the instant that `toISOString()` renders. */
  datatype HistoryEntry = HistoryEntry(role: string, content: string, timestamp: int, messageId: string)

  /** The JSON body POSTed to the chat endpoint, with the URL it is sent to. */
  datatype ChatRequest = ChatRequest(url: string, message: string, userName: string, conversationHistory: seq<HistoryEntry>)

  /** A successful response body: `response`, and the optional `message_id` and `timestamp` (already turned into a Date). */
  datatype ReplyData = ReplyData(response: string, messageId: Option<MessageId>, timestamp: Timestamp)

  /** The outcome of the POST: an ok response with its body, or anything else (non-ok status, network error, bad JSON). */
  datatype Exchange = Ok(data: ReplyData) | Failed

  const GREETING_TEXT: string := "Hello! I'm Isha, your professional AI assistant. Hold the mic button to speak with me!"

  /** The URL the exchange is sent to; it is written out literally, not built by the configuration helper. */
  const CHAT_URL: string := "http://localhost:5000/chat"

  const USER_NAME: string := "User"

  const FALLBACK_PREFIX: string := "I'm replying to your message! I heard you say: \""
  const FALLBACK_SUFFIX: string := "\". I'm currently having trouble connecting to my backend services, but I'm still here to help! This is a demo of voice interaction with your AI assistant Isha."

  /** The single message the log starts with, created when the component mounts. */
  function Greeting(mountedAt: int): (m: Message)
    ensures m.sender == Isha && m.id == NumId(1) && m.timestamp.At?
  {
    Message(NumId(1), GREETING_TEXT, Isha, At(mountedAt))
  }

  /** The text shown when the backend cannot be reached; it quotes the transcript verbatim. */
  function FallbackText(transcript: string): (text: string)
    ensures |text| == |FALLBACK_PREFIX| + |transcript| + |FALLBACK_SUFFIX|
    ensures text[|FALLBACK_PREFIX|..|FALLBACK_PREFIX| + |transcript|] == transcript
  {
    var text := FALLBACK_PREFIX + transcript + FALLBACK_SUFFIX;
    assert text[|FALLBACK_PREFIX|..][..|transcript|] == transcript;
    text
  }

  /** The transcript can be read back from the fallback text, so different transcripts give different texts. */
  lemma FallbackTextInjective(a: string, b: string)
    requires FallbackText(a) == FallbackText(b)
    ensures a == b
  {
    assert |a| == |b|;
  }

  /** `id.toString()`: a backend string id as it is, a number as its decimal rendering, with a sign exactly for negatives. */
  function IdString(id: MessageId): (r: string)
    ensures id.StrId? ==> r == id.s
    ensures id.NumId? ==> |r| > 0 && (id.n >= 0 <==> IsDigit(r[0]))
  {
    match id
    case NumId(n) => IntToString(n)
    case StrId(s) => s
  }

  /** Two numeric ids have the same `message_id` string only when they are the same number. */
  lemma NumIdStringInjective(a: int, b: int)
    requires IdString(NumId(a)) == IdString(NumId(b))
    ensures a == b
  {
    IntToStringInjective(a, b);
  }

  /** The history entry of one message whose Date is valid: role "user" exactly for the user's messages and "assistant" for all others, the text, the Date's instant and the id as a string. */
  function EntryOf(m: Message): (e: HistoryEntry)
    requires m.timestamp.At?
    ensures e.role == "user" <==> m.sender == User
    ensures e.role == "assistant" <==> m.sender != User
    ensures e.content == m.text && e.timestamp == m.timestamp.ms && e.messageId == IdString(m.id)
  {
    HistoryEntry(if m.sender == User then "user" else "assistant", m.text, m.timestamp.ms, IdString(m.id))
  }

  predicate AllDatesValid(msgs: seq<Message>) {
    forall i :: 0 <= i < |msgs| ==> msgs[i].timestamp.At?
  }

  /**
   `messages.map(...)` for the request body. `toISOString()` throws on an
   Invalid Date, and then there is no history (None).
   */
  function History(msgs: seq<Message>): (h: Option<seq<HistoryEntry>>)
    ensures h.Some? <==> AllDatesValid(msgs)
    ensures h.Some? ==> |h.value| == |msgs| && forall i :: 0 <= i < |msgs| ==> h.value[i] == EntryOf(msgs[i])
  {
    if msgs == [] then Some([])
    else
      var front := msgs[..|msgs| - 1];
      var last := msgs[|msgs| - 1];
      assert forall i :: 0 <= i < |front| ==> front[i] == msgs[i];
      if last.timestamp.InvalidDate? then None
      else match History(front)
        case None => None
        case Some(h) =>
          var entries := h + [EntryOf(last)];
          assert forall i :: 0 <= i < |front| ==> entries[i] == h[i];
          Some(entries)
  }

  /**
   The history has the log's length and order; each entry has role "user"
   exactly for the user's messages and "assistant" otherwise, the text as
   content, the Date's instant, and the id as a string.
   */
  lemma HistoryMirrorsLog(msgs: seq<Message>)
    requires AllDatesValid(msgs)
    ensures History(msgs).Some? && |History(msgs).value| == |msgs|
    ensures forall i :: 0 <= i < |msgs| ==>
      && (History(msgs).value[i].role == "user" <==> msgs[i].sender == User)
      && (History(msgs).value[i].role == "assistant" <==> msgs[i].sender != User)
      && History(msgs).value[i].content == msgs[i].text
      && History(msgs).value[i].timestamp == msgs[i].timestamp.ms
      && History(msgs).value[i].messageId == IdString(msgs[i].id)
  {
  }

  /** Once the log holds an Invalid Date, no longer log has a history either. */
  lemma InvalidDatePoisonsHistory(msgs: seq<Message>, later: seq<Message>, i: nat)
    requires i < |msgs| && msgs[i].timestamp.InvalidDate?
    ensures History(msgs + later) == None
  {
    assert (msgs + later)[i] == msgs[i];
  }

  /** The request sent for `transcript` given the log before the new user message; None when the history throws. */
  function Request(transcript: string, msgs: seq<Message>): (r: Option<ChatRequest>)
    ensures r.Some? <==> AllDatesValid(msgs)
    ensures r.Some? ==> r.value.url == CHAT_URL && r.value.message == transcript && r.value.userName == USER_NAME
    ensures r.Some? ==> Some(r.value.conversationHistory) == History(msgs)
  {
    match History(msgs)
    case None => None
    case Some(h) => Some(ChatRequest(CHAT_URL, transcript, USER_NAME, h))
  }

  /** The user message for a finalised transcript, stamped with the clock at stop time. */
  function UserMessage(transcript: string, now: int): (m: Message)
    ensures m.sender == User && m.text == transcript && m.id == NumId(now) && m.timestamp == At(now)
  {
    Message(NumId(now), transcript, User, At(now))
  }

  /** JavaScript truthiness of `data.message_id`: absent, 0 and "" are falsy, every other id is truthy. */
  function IsTruthy(id: Option<MessageId>): (truthy: bool)
    ensures truthy <==> id.Some? && id.value != NumId(0) && id.value != StrId("")
  {
    match id
    case None => false
    case Some(NumId(n)) => n != 0
    case Some(StrId(s)) => s != ""
  }

  /**
   The assistant message appended after the exchange. It is the backend's
   reply only when a request could be built and the response was ok;
   `replyNow` is the clock read after the response (or the failure).
   */
  function AssistantReply(transcript: string, request: Option<ChatRequest>, outcome: Exchange, replyNow: int): (m: Message)
    ensures m.sender == Isha
  {
    if request.Some? && outcome.Ok? then
      var data := outcome.data;
      Message(if IsTruthy(data.messageId) then data.messageId.value else NumId(replyNow + 1),
              data.response, Isha, data.timestamp)
    else
      Message(NumId(replyNow + 1), FallbackText(transcript), Isha, At(replyNow))
  }

  /** On an ok response the assistant says the backend's text, under the backend's id when that is truthy. */
  lemma ReplyOnSuccess(transcript: string, request: Option<ChatRequest>, data: ReplyData, replyNow: int)
    requires request.Some?
    ensures AssistantReply(transcript, request, Ok(data), replyNow).text == data.response
    ensures AssistantReply(transcript, request, Ok(data), replyNow).id
         == if IsTruthy(data.messageId) then data.messageId.value else NumId(replyNow + 1)
    ensures AssistantReply(transcript, request, Ok(data), replyNow).timestamp == data.timestamp
  {
  }

  /** Otherwise the assistant says the fallback text, which quotes the transcript verbatim. */
  lemma ReplyOnFailure(transcript: string, request: Option<ChatRequest>, outcome: Exchange, replyNow: int)
    requires request.None? || outcome.Failed?
    ensures var m := AssistantReply(transcript, request, outcome, replyNow);
      && m.text == FallbackText(transcript)
      && m.text[|FALLBACK_PREFIX|..|FALLBACK_PREFIX| + |transcript|] == transcript
      && m.id == NumId(replyNow + 1) && m.timestamp == At(replyNow)
  {
  }

  /** The history of the initial log: one assistant entry carrying the greeting under message id "1". */
  lemma GreetingHistory(mountedAt: int)
    ensures History([Greeting(mountedAt)]) == Some([HistoryEntry("assistant", GREETING_TEXT, mountedAt, "1")])
  {
    var log := [Greeting(mountedAt)];
    assert log[..0] == [];
    assert DigitChar(1) == '1';
    assert IdString(NumId(1)) == "1";
    assert History(log[..0]) == Some([]);
    assert EntryOf(log[0]) == HistoryEntry("assistant", GREETING_TEXT, mountedAt, "1");
    assert History(log) == Some([] + [EntryOf(log[0])]);
    assert [] + [EntryOf(log[0])] == [EntryOf(log[0])];
  }
}
