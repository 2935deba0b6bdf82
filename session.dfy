/**
 The press-to-talk session of the chat component, as a state machine over
 the component's state variables and refs. The browser's capabilities are
 replaced by inputs: whether the microphone was granted, whether speech
 recognition exists, the frequency bins of each animation frame, the
 recogniser's result lists, the outcome of the exchange and the clock.
 Each handler is a function from the state before to the state after; the
 class in module ChatApp runs them in place.
 */
module Session {
  import opened Conversation
  import opened Recognition
  import opened Audio
  import opened JsText
  import Api

  /** `mediaRecorderRef.current`: empty, or the latest recorder and whether it is still recording. */
  datatype RecorderRef = NoRecorder | Recorder(recording: bool)

  /** `audioContextRef.current`: empty, or the latest audio context and whether it is still open. */
  datatype ContextRef = NoContext | Context(open: bool)

  /**
   How far a press gets once it asks for the microphone: refused; granted but
   the recorder's constructor throws; granted but the recorder's `start()`
   throws; or granted with the recorder running. The two recorder failures
   happen after the level sampling has already begun.
   */
  datatype Microphone = Denied | RecorderUnavailable | RecorderNotStarted | Granted

  /**
   The component's state. `samplingLoops` counts the self-rescheduling
   level-sampling loops that are alive; `recognizers` counts the
   recognisers started so far, none of which is ever stopped.
   */
  datatype SessionState = SessionState(
    isListening: bool,
    transcript: string,
    messages: seq<Message>,
    isRecording: bool,
    audioLevel: real,
    mediaRecorder: RecorderRef,
    audioContext: ContextRef,
    samplingLoops: nat,
    recognizers: nat)

  /**
   The invariant every handler keeps: the flags agree, the level is a
   fraction, the greeting stays first, and a recording session holds a
   recorder and a live sampling loop. (A later press whose recorder fails to
   start can leave a stopped recorder in the ref of a recording session.)
   */
  predicate ValidState(s: SessionState) {
    && s.isListening == s.isRecording
    && 0.0 <= s.audioLevel <= 1.0
    && |s.messages| > 0 && s.messages[0].text == GREETING_TEXT && s.messages[0].sender == Isha
    && (s.isRecording ==> s.mediaRecorder.Recorder? && s.samplingLoops > 0)
  }

  /** The state when the component mounts. */
  function Mounted(mountedAt: int): (s: SessionState)
    ensures ValidState(s) && !s.isRecording && s.transcript == "" && s.audioLevel == 0.0
    ensures s.messages == [Greeting(mountedAt)]
  {
    SessionState(false, "", [Greeting(mountedAt)], false, 0.0, NoRecorder, NoContext, 0, 0)
  }

  /** The latest audio context, closed; an empty ref stays empty. */
  function Closed(context: ContextRef): (c: ContextRef)
    ensures c.NoContext? <==> context.NoContext?
    ensures c.Context? ==> !c.open
  {
    if context.Context? then Context(false) else NoContext
  }

  /**
   Press. Once the microphone is granted: a new open audio context, the
   first frame's level and one more sampling loop. Then the recorder: if its
   constructor throws the ref keeps its old value, if its `start()` throws
   the ref holds the new, stopped recorder, and in both cases the handler
   ends in its catch with the flags as they were. Otherwise both flags are
   raised, and one more recogniser is running if recognition exists (when it
   does not, constructing it throws after the flags are already raised).
   There is no guard against a session that is already recording.
   */
  function Started(s: SessionState, microphone: Microphone, recognitionSupported: bool, firstFrame: seq<Byte>): (t: SessionState)
    requires |firstFrame| == FREQUENCY_BIN_COUNT
    ensures ValidState(s) ==> ValidState(t)
    ensures t.transcript == s.transcript && t.messages == s.messages
    ensures microphone != Granted ==> t.isRecording == s.isRecording && t.isListening == s.isListening && t.recognizers == s.recognizers
  {
    var sampling := s.(audioContext := Context(true), audioLevel := Level(firstFrame),
                       samplingLoops := s.samplingLoops + 1);
    match microphone
    case Denied => s
    case RecorderUnavailable => sampling
    case RecorderNotStarted => sampling.(mediaRecorder := Recorder(false))
    case Granted =>
      sampling.(mediaRecorder := Recorder(true), isRecording := true, isListening := true,
                recognizers := s.recognizers + if recognitionSupported then 1 else 0)
  }

  /** One animation frame of a live sampling loop: only the level changes, and it stays a fraction. */
  function Sampled(s: SessionState, bins: seq<Byte>): (t: SessionState)
    requires |bins| == FREQUENCY_BIN_COUNT
    ensures ValidState(s) ==> ValidState(t)
    ensures t.(audioLevel := s.audioLevel) == s
  {
    s.(audioLevel := Level(bins))
  }

  /** A recogniser reports its results so far: only the transcript changes, to the join. */
  function Recognized(s: SessionState, results: seq<SpeechResult>): (t: SessionState)
    ensures ValidState(s) ==> ValidState(t)
    ensures t.(transcript := s.transcript) == s
    ensures t.transcript == JoinTranscript(results)
  {
    s.(transcript := JoinTranscript(results))
  }

  /** Release acts only when a recorder exists and the session is recording; under the invariant the recorder test is implied. */
  function CanStop(s: SessionState): (can: bool)
    ensures ValidState(s) ==> (can <==> s.isRecording)
  {
    s.mediaRecorder.Recorder? && s.isRecording
  }

  /**
   The request a release sends: one exactly when the session is recording,
   the transcript has a non-whitespace character and the log's Dates are
   all valid; it carries the untrimmed transcript and the log as it was
   before the new user message.
   */
  function StopRequest(s: SessionState): (r: Option<ChatRequest>)
    ensures r.Some? <==> CanStop(s) && !AllWhitespace(s.transcript) && AllDatesValid(s.messages)
    ensures r.Some? ==> r.value.message == s.transcript && Some(r.value.conversationHistory) == History(s.messages)
  {
    if CanStop(s) && !IsBlank(s.transcript) then Request(s.transcript, s.messages) else None
  }

  /** The part of a release that happens whatever the transcript: recorder stopped, flags lowered, level zeroed, one sampling loop cancelled, the latest audio context closed. The recognisers keep running, and transcript and log are untouched. */
  function Released(s: SessionState): (t: SessionState)
    ensures ValidState(s) ==> ValidState(t)
    ensures !t.isRecording && !CanStop(t)
    ensures t.transcript == s.transcript && t.messages == s.messages && t.recognizers == s.recognizers
    ensures s.samplingLoops > 0 ==> t.samplingLoops == s.samplingLoops - 1
  {
    s.(mediaRecorder := Recorder(false), isRecording := false, isListening := false,
       audioLevel := 0.0,
       samplingLoops := if s.samplingLoops > 0 then s.samplingLoops - 1 else 0,
       audioContext := Closed(s.audioContext))
  }

  /** The rest of a release: a non-blank transcript becomes a user message followed by exactly one assistant message, and is cleared; a blank one is left as it is. */
  function Finalized(s: SessionState, outcome: Exchange, now: int, replyNow: int): (t: SessionState)
    ensures ValidState(s) ==> ValidState(t)
    ensures s.messages <= t.messages
    ensures |t.messages| == |s.messages| + if AllWhitespace(s.transcript) then 0 else 2
    ensures t.transcript == if AllWhitespace(s.transcript) then s.transcript else ""
  {
    if IsBlank(s.transcript) then s
    else
      var request := Request(s.transcript, s.messages);
      var t := s.(messages := s.messages + [UserMessage(s.transcript, now),
                                            AssistantReply(s.transcript, request, outcome, replyNow)],
                  transcript := "");
      assert |s.messages| > 0 ==> t.messages[0] == s.messages[0];
      t
  }

  /** Release: nothing at all unless a recorder exists and the session is recording; otherwise it keeps the invariant and only appends to the log. */
  function Stopped(s: SessionState, outcome: Exchange, now: int, replyNow: int): (t: SessionState)
    ensures !CanStop(s) ==> t == s
    ensures ValidState(s) ==> ValidState(t) && !t.isRecording
    ensures s.messages <= t.messages
  {
    if !CanStop(s) then s else Finalized(Released(s), outcome, now, replyNow)
  }

  /**
   Microphone refused: nothing changes. Granted: a sampling loop starts and
   the level is the first frame's, whatever the recorder then does; only a
   recorder that starts raises the flags.
   */
  lemma StartOutcome(s: SessionState, microphone: Microphone, recognitionSupported: bool, firstFrame: seq<Byte>)
    requires |firstFrame| == FREQUENCY_BIN_COUNT
    ensures Started(s, Denied, recognitionSupported, firstFrame) == s
    ensures var t := Started(s, microphone, recognitionSupported, firstFrame);
      microphone != Denied ==>
        && t.audioLevel == Level(firstFrame) && 0.0 <= t.audioLevel <= 1.0
        && t.samplingLoops == s.samplingLoops + 1 && t.audioContext == Context(true)
    ensures var t := Started(s, Granted, recognitionSupported, firstFrame);
      t.isRecording && t.isListening && t.mediaRecorder == Recorder(true) && CanStop(t)
  {
  }

  /**
   A press whose recorder fails leaves an idle session with a live sampling
   loop: release is then a no-op, so that loop is never cancelled and keeps
   moving the level.
   */
  lemma FailedRecorderLeavesALoop(s: SessionState, microphone: Microphone, frame: seq<Byte>, bins: seq<Byte>, outcome: Exchange, now: int, replyNow: int)
    requires ValidState(s) && !s.isRecording && s.samplingLoops == 0
    requires microphone == RecorderUnavailable || microphone == RecorderNotStarted
    requires |frame| == FREQUENCY_BIN_COUNT && |bins| == FREQUENCY_BIN_COUNT
    requires exists i :: 0 <= i < |bins| && bins[i] != 0
    ensures var t := Started(s, microphone, true, frame);
      && !t.isRecording && t.samplingLoops == 1
      && Stopped(t, outcome, now, replyNow) == t
      && Sampled(t, bins).audioLevel > 0.0
  {
  }

  /** A recognition result replaces the transcript: it does not depend on the old transcript at all. */
  lemma RecognitionReplacesTranscript(s: SessionState, results: seq<SpeechResult>, old_transcript: string)
    ensures Recognized(s, results).transcript == JoinTranscript(results)
    ensures Recognized(s.(transcript := old_transcript), results) == Recognized(s, results)
    ensures Recognized(s, results).messages == s.messages
  {
  }

  /** Release while not recording, or with no recorder, changes nothing and sends nothing. */
  lemma StopWhenIdleIsNoOp(s: SessionState, outcome: Exchange, now: int, replyNow: int)
    requires !CanStop(s)
    ensures Stopped(s, outcome, now, replyNow) == s && StopRequest(s) == None
  {
  }

  /** Release of a recording session always ends recording and zeroes the level; the recognisers are not stopped. */
  lemma StopEndsRecording(s: SessionState, outcome: Exchange, now: int, replyNow: int)
    requires CanStop(s)
    ensures var t := Stopped(s, outcome, now, replyNow);
      && !t.isRecording && !t.isListening && t.audioLevel == 0.0
      && t.mediaRecorder == Recorder(false) && t.audioContext == Closed(s.audioContext)
      && t.recognizers == s.recognizers
  {
  }

  /** A blank transcript produces no message and no exchange, and is not cleared. */
  lemma StopWithBlankTranscript(s: SessionState, outcome: Exchange, now: int, replyNow: int)
    requires CanStop(s) && AllWhitespace(s.transcript)
    ensures StopRequest(s) == None
    ensures Stopped(s, outcome, now, replyNow).messages == s.messages
    ensures Stopped(s, outcome, now, replyNow).transcript == s.transcript
  {
    BlankIffAllWhitespace(s.transcript);
  }

  /**
   A transcript with a non-whitespace character appends exactly two
   messages and leaves every earlier one in place: the user's untrimmed
   transcript, then one assistant message. The transcript is then cleared.
   */
  lemma StopWithTranscript(s: SessionState, outcome: Exchange, now: int, replyNow: int)
    requires CanStop(s) && !AllWhitespace(s.transcript)
    ensures var t := Stopped(s, outcome, now, replyNow);
      && |t.messages| == |s.messages| + 2
      && t.messages[..|s.messages|] == s.messages
      && t.messages[|s.messages|] == UserMessage(s.transcript, now)
      && t.messages[|s.messages| + 1].sender == Isha
      && t.transcript == ""
  {
    BlankIffAllWhitespace(s.transcript);
    var t := Stopped(s, outcome, now, replyNow);
    assert t.messages[..|s.messages|] == s.messages;
  }

  /**
   The history sent with a non-blank transcript mirrors the log before the
   new message: same length, same order, role "user" exactly for the user's
   messages, the text as content and the id as a string.
   */
  lemma StopSendsPriorHistory(s: SessionState)
    requires CanStop(s) && !AllWhitespace(s.transcript) && AllDatesValid(s.messages)
    ensures StopRequest(s).Some?
    ensures var r := StopRequest(s).value;
      && r.url == CHAT_URL && r.message == s.transcript && r.userName == USER_NAME
      && |r.conversationHistory| == |s.messages|
      && forall i :: 0 <= i < |s.messages| ==>
           && (r.conversationHistory[i].role == "user" <==> s.messages[i].sender == User)
           && (r.conversationHistory[i].role == "assistant" <==> s.messages[i].sender != User)
           && r.conversationHistory[i].content == s.messages[i].text
           && r.conversationHistory[i].messageId == IdString(s.messages[i].id)
  {
    BlankIffAllWhitespace(s.transcript);
  }

  /** On an ok response the assistant message carries the backend's text, under the backend's id when that is truthy. */
  lemma StopRepliesFromBackend(s: SessionState, data: ReplyData, now: int, replyNow: int)
    requires CanStop(s) && !AllWhitespace(s.transcript) && AllDatesValid(s.messages)
    ensures var t := Stopped(s, Ok(data), now, replyNow);
      && |t.messages| == |s.messages| + 2
      && t.messages[|s.messages| + 1].text == data.response
      && t.messages[|s.messages| + 1].id
           == if IsTruthy(data.messageId) then data.messageId.value else NumId(replyNow + 1)
  {
    StopWithTranscript(s, Ok(data), now, replyNow);
    StopSendsPriorHistory(s);
  }

  /**
   When the exchange fails, or the history cannot be serialised because the
   log holds an Invalid Date, the assistant message is the fallback text,
   which quotes the transcript verbatim.
   */
  lemma StopRepliesWithFallback(s: SessionState, outcome: Exchange, now: int, replyNow: int)
    requires CanStop(s) && !AllWhitespace(s.transcript)
    requires outcome.Failed? || !AllDatesValid(s.messages)
    ensures var t := Stopped(s, outcome, now, replyNow);
      && |t.messages| == |s.messages| + 2
      && t.messages[|s.messages| + 1].text == FallbackText(s.transcript)
      && t.messages[|s.messages| + 1].text[|FALLBACK_PREFIX|..|FALLBACK_PREFIX| + |s.transcript|] == s.transcript
  {
    StopWithTranscript(s, outcome, now, replyNow);
    BlankIffAllWhitespace(s.transcript);
    ReplyOnFailure(s.transcript, StopRequest(s), outcome, replyNow);
  }

  /** An event the component can receive. */
  datatype Event =
    | Press(microphone: Microphone, recognitionSupported: bool, firstFrame: seq<Byte>)
    | Frame(bins: seq<Byte>)
    | Result(results: seq<SpeechResult>)
    | Release(outcome: Exchange, now: int, replyNow: int)

  /** Whether the component can receive `e` in state `s`: frames need a live loop, results a started recogniser. */
  predicate Possible(s: SessionState, e: Event) {
    match e
    case Press(_, _, frame) => |frame| == FREQUENCY_BIN_COUNT
    case Frame(bins) => s.samplingLoops > 0 && |bins| == FREQUENCY_BIN_COUNT
    case Result(_) => s.recognizers > 0
    case Release(_, _, _) => true
  }

  function Step(s: SessionState, e: Event): SessionState
    requires Possible(s, e)
  {
    match e
    case Press(microphone, supported, frame) => Started(s, microphone, supported, frame)
    case Frame(bins) => Sampled(s, bins)
    case Result(results) => Recognized(s, results)
    case Release(outcome, now, replyNow) => Stopped(s, outcome, now, replyNow)
  }

  /** Every handler keeps the invariant and only ever appends to the log. */
  lemma StepKeepsValid(s: SessionState, e: Event)
    requires ValidState(s) && Possible(s, e)
    ensures ValidState(Step(s, e))
    ensures s.messages <= Step(s, e).messages
  {
    if e.Release? {
      var t := Step(s, e);
      assert t.messages[0] == s.messages[0];
    }
  }

  /** The state after a run of events; an event the component cannot receive at that point is not delivered. */
  function Run(s: SessionState, events: seq<Event>): SessionState
    decreases |events|
  {
    if events == [] then s
    else Run(if Possible(s, events[0]) then Step(s, events[0]) else s, events[1..])
  }

  /** Over any run the log only grows, the invariant holds, and the greeting stays first. */
  lemma {:induction false} RunIsAppendOnly(s: SessionState, events: seq<Event>)
    requires ValidState(s)
    decreases |events|
    ensures ValidState(Run(s, events))
    ensures s.messages <= Run(s, events).messages
  {
    if events != [] {
      var next := if Possible(s, events[0]) then Step(s, events[0]) else s;
      if Possible(s, events[0]) {
        StepKeepsValid(s, events[0]);
      }
      RunIsAppendOnly(next, events[1..]);
    }
  }

  /**
   Without an already-recording guard, a second press starts a second
   sampling loop; release cancels only one, so after press, press, release
   the session is idle while a loop still moves the level.
   */
  lemma DoublePressLeavesALoop(s: SessionState, frame: seq<Byte>, bins: seq<Byte>, outcome: Exchange, now: int, replyNow: int)
    requires ValidState(s) && !s.isRecording && s.samplingLoops == 0
    requires |frame| == FREQUENCY_BIN_COUNT && |bins| == FREQUENCY_BIN_COUNT
    requires exists i :: 0 <= i < |bins| && bins[i] != 0
    ensures var t := Stopped(Started(Started(s, Granted, true, frame), Granted, true, frame), outcome, now, replyNow);
      && !t.isRecording && t.samplingLoops == 1
      && !Sampled(t, bins).isRecording && Sampled(t, bins).audioLevel > 0.0
  {
  }

  /** The exchange goes to a literal URL that is neither the configured endpoint nor the development one. */
  lemma ChatUrlIsNotConfiguredEndpoint()
    ensures CHAT_URL != Api.GetApiEndpoint("/chat")
    ensures CHAT_URL != Api.API_URLS["development"] + "/chat"
  {
    Api.EndpointShape("/chat");
    assert CHAT_URL[8] != Api.GetApiEndpoint("/chat")[8];
    assert CHAT_URL[17] != (Api.API_URLS["development"] + "/chat")[17];
  }
}

/** The chat component as an object whose handlers update its state in place. */
module ChatApp {
  import opened Conversation
  import opened Recognition
  import opened Audio
  import opened JsText
  import opened Session

  class App {
    var isListening: bool
    var transcript: string
    var messages: seq<Message>
    var isRecording: bool
    var audioLevel: real
    var mediaRecorder: RecorderRef
    var audioContext: ContextRef
    var samplingLoops: nat
    var recognizers: nat

    ghost function State(): SessionState
      reads this
    {
      SessionState(isListening, transcript, messages, isRecording, audioLevel,
                   mediaRecorder, audioContext, samplingLoops, recognizers)
    }

    ghost predicate Valid()
      reads this
    {
      ValidState(State())
    }

    constructor (mountedAt: int)
      ensures Valid() && State() == Mounted(mountedAt)
    {
      isListening := false;
      transcript := "";
      messages := [Greeting(mountedAt)];
      isRecording := false;
      audioLevel := 0.0;
      mediaRecorder := NoRecorder;
      audioContext := NoContext;
      samplingLoops := 0;
      recognizers := 0;
    }

    /** Press-to-talk pressed. */
    method StartRecording(microphone: Microphone, recognitionSupported: bool, firstFrame: seq<Byte>)
      requires Valid() && |firstFrame| == FREQUENCY_BIN_COUNT
      modifies this
      ensures Valid()
      ensures State() == Started(old(State()), microphone, recognitionSupported, firstFrame)
    {
      if microphone == Denied {
        return;
      }
      audioContext := Context(true);
      audioLevel := Level(firstFrame);
      samplingLoops := samplingLoops + 1;
      if microphone == RecorderUnavailable {
        return;
      }
      if microphone == RecorderNotStarted {
        mediaRecorder := Recorder(false);
        return;
      }
      mediaRecorder := Recorder(true);
      isRecording := true;
      isListening := true;
      if recognitionSupported {
        recognizers := recognizers + 1;
      }
    }

    /** One animation frame of a live sampling loop. */
    method SampleAudioLevel(bins: seq<Byte>)
      requires Valid() && samplingLoops > 0 && |bins| == FREQUENCY_BIN_COUNT
      modifies this
      ensures Valid()
      ensures State() == Sampled(old(State()), bins)
    {
      audioLevel := Level(bins);
    }

    /** A recogniser reports its results so far. */
    method OnRecognitionResult(results: seq<SpeechResult>)
      requires Valid() && recognizers > 0
      modifies this
      ensures Valid()
      ensures State() == Recognized(old(State()), results)
    {
      transcript := JoinTranscript(results);
    }

    /** Press-to-talk released; returns the request that was sent, if any. */
    method StopRecording(outcome: Exchange, now: int, replyNow: int) returns (sent: Option<ChatRequest>)
      requires Valid()
      modifies this
      ensures Valid()
      ensures sent == StopRequest(old(State()))
      ensures State() == Stopped(old(State()), outcome, now, replyNow)
    {
      sent := None;
      if !(mediaRecorder.Recorder? && isRecording) {
        return;
      }
      ghost var before := State();
      ReleaseCapture();
      sent := FinalizeTranscript(before, outcome, now, replyNow);
    }

    /** Stops the recorder, lowers both flags, zeroes the level, cancels one sampling loop and closes the audio context. */
    method ReleaseCapture()
      requires Valid() && CanStop(State())
      modifies this
      ensures Valid()
      ensures State() == Released(old(State()))
    {
      mediaRecorder := Recorder(false);
      isRecording := false;
      isListening := false;
      audioLevel := 0.0;
      if samplingLoops > 0 {
        samplingLoops := samplingLoops - 1;
      }
      audioContext := Closed(audioContext);
    }

    /** The second half of a release of the recording session `before`: turns a non-blank transcript into a user message, sends it with the log as it was before, and appends the one assistant message. */
    method FinalizeTranscript(ghost before: SessionState, outcome: Exchange, now: int, replyNow: int) returns (sent: Option<ChatRequest>)
      requires ValidState(before) && CanStop(before) && State() == Released(before)
      modifies this
      ensures Valid()
      ensures sent == (if IsBlank(old(transcript)) then None else Request(old(transcript), old(messages)))
      ensures State() == Finalized(old(State()), outcome, now, replyNow)
    {
      sent := None;
      if !IsBlank(transcript) {
        var history := messages;
        messages := messages + [UserMessage(transcript, now)];
        sent := Request(transcript, history);
        messages := messages + [AssistantReply(transcript, sent, outcome, replyNow)];
        transcript := "";
      }
    }
  }

  /**
   One whole turn driven through the handlers: press, a recognition result,
   release. The log becomes the greeting, the user's words and exactly one
   reply: the backend's text when the exchange succeeded, otherwise the
   fallback that quotes the words. The request carries the greeting as its
   whole history.
   */
  method ConversationTurn(mountedAt: int, frame: seq<Byte>, results: seq<SpeechResult>,
                          outcome: Exchange, now: int, replyNow: int)
    returns (log: seq<Message>, sent: Option<ChatRequest>)
    requires |frame| == FREQUENCY_BIN_COUNT
    requires !AllWhitespace(JoinTranscript(results))
    ensures |log| == 3 && log[0] == Greeting(mountedAt)
    ensures log[1] == UserMessage(JoinTranscript(results), now) && log[2].sender == Isha
    ensures log[2].text == if outcome.Ok? then outcome.data.response else FallbackText(JoinTranscript(results))
    ensures sent.Some? && sent.value.message == JoinTranscript(results)
    ensures Some(sent.value.conversationHistory) == History([Greeting(mountedAt)])
  {
    var app := new App(mountedAt);
    app.StartRecording(Granted, true, frame);
    app.OnRecognitionResult(results);
    ghost var before := app.State();
    assert AllDatesValid(before.messages);
    if outcome.Ok? {
      StopRepliesFromBackend(before, outcome.data, now, replyNow);
    } else {
      StopRepliesWithFallback(before, outcome, now, replyNow);
    }
    StopSendsPriorHistory(before);
    sent := app.StopRecording(outcome, now, replyNow);
    log := app.messages;
  }
}
