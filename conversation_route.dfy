/** The conversation endpoint: parse the history, check the audio, transcribe, reject
    blank speech, ask the chat model for a reply, synthesize it at the level's speed,
    and answer with the three results; any thrown error becomes one 500 answer. */
module ConversationRoute {
  import opened Wrappers
  import opened Types
  import opened JsBuiltins
  import opened Http
  import opened Provider

  const NoAudioError: string := "No audio file provided"
  const NoSpeechError: string := "No speech detected in the audio"
  const ConversationFailure: string := "Failed to process conversation. Please try again."

  /** The speech-rate table, one entry per level. */
  function SpeechSpeedOf(l: CEFRLevel): real {
    match l
    case A1 => 0.85
    case A2 => 0.88
    case B1 => 0.92
    case B2 => 0.96
    case C1 => 1.0
    case C2 => 1.0
  }

  /** `SPEECH_SPEED[level] || 1.0` for the level field as received. */
  function SpeechSpeed(level: Option<string>): real {
    if level.Some? && ParseLevel(level.value).Some? then SpeechSpeedOf(ParseLevel(level.value).value)
    else 1.0
  }

  /** Each level code gets its table entry, anything else gets 1.0, every speed lies
      in [0.85, 1.0], and speeds never decrease up the scale. */
  lemma SpeechSpeedProperties(level: Option<string>, a: CEFRLevel, b: CEFRLevel)
    ensures SpeechSpeed(Some(LevelCode(a))) == SpeechSpeedOf(a)
    ensures (level.None? || ParseLevel(level.value).None?) ==> SpeechSpeed(level) == 1.0
    ensures 0.85 <= SpeechSpeed(level) <= 1.0
    ensures LevelRank(a) <= LevelRank(b) ==> SpeechSpeedOf(a) <= SpeechSpeedOf(b)
  {
    LevelCodeRoundTrip(a, "");
  }

  /** `historyJson ? JSON.parse(historyJson) : []`: a missing or empty field is the
      empty history; otherwise whatever the parse gives. Only a non-empty field can
      fail to parse or give a value that is not an array, and a field that reads as
      a non-empty history was sent. */
  function ParsedHistory(field: Option<string>, rt: Runtime): (r: HistoryJson)
    ensures !r.Items? ==> field.Some? && field.value != ""
    ensures r.Items? && r.items != [] ==> field.Some? && field.value != ""
  {
    if Truthy(field) then rt.parseHistory(field.value) else Items([])
  }

  function TranscriptionMessage(text: string): string {
    "[TRANSCRIPTION FROM SPEECH]: \"" + text + "\""
  }

  function ChatRoleOf(r: Role): ChatRole {
    match r
    case User => UserRole
    case Assistant => AssistantRole
  }

  /** Each history item reduced to its role and content. */
  function HistoryMessages(history: seq<HistoryItem>): (msgs: seq<ChatMessage>)
    ensures |msgs| == |history|
    ensures forall i | 0 <= i < |history| ::
              msgs[i] == ChatMessage(ChatRoleOf(history[i].role), history[i].content)
  {
    if history == [] then []
    else [ChatMessage(ChatRoleOf(history[0].role), history[0].content)] + HistoryMessages(history[1..])
  }

  /** The chat input: the system prompt, the history in order, then the transcription
      as one user message. */
  function ChatInput(prompt: string, history: seq<HistoryItem>, text: string): (msgs: seq<ChatMessage>)
    ensures |msgs| == |history| + 2
    ensures msgs[0] == ChatMessage(SystemRole, prompt)
    ensures forall i | 0 <= i < |history| ::
              msgs[i + 1] == ChatMessage(ChatRoleOf(history[i].role), history[i].content)
    ensures msgs[|msgs| - 1] == ChatMessage(UserRole, TranscriptionMessage(text))
  {
    [ChatMessage(SystemRole, prompt)] + HistoryMessages(history) + [ChatMessage(UserRole, TranscriptionMessage(text))]
  }

  /** `choices[0].message.content || ''`. */
  function ReplyText(choices: seq<Option<string>>): string
    requires |choices| > 0
  {
    OrElse(choices[0], "")
  }

  const Failure: Response := Response(500, ErrorBody(ConversationFailure))

  /** The request's form, audio file, history and transcription are all usable: the
      point from which the chat stage runs. */
  predicate ReachesChat(request: Option<Form>, ai: AiProvider, rt: Runtime) {
    && request.Some?
    && ParsedHistory(request.value.history, rt).Items?
    && request.value.audio.Some?
    && ai.transcribe(request.value.audio.value).Returned?
    && !IsBlank(ai.transcribe(request.value.audio.value).value)
  }

  /** The chat request the route builds once it reaches the chat stage. */
  function ChatStageRequest(request: Option<Form>, ai: AiProvider, rt: Runtime): ChatRequest
    requires ReachesChat(request, ai, rt)
  {
    var form := request.value;
    ChatRequest(ChatInput(rt.conversationPrompt(form.level), ParsedHistory(form.history, rt).items,
                          ai.transcribe(form.audio.value).value), false)
  }

  /** The chat stage is reached, the completion returns at least one choice, and the
      speech of the reply returns. */
  predicate AllStagesReturn(request: Option<Form>, ai: AiProvider, rt: Runtime) {
    && ReachesChat(request, ai, rt)
    && var choices := ai.chat(ChatStageRequest(request, ai, rt));
    && choices.Returned? && |choices.value| > 0
    && ai.speech(ReplyText(choices.value), SpeechSpeed(request.value.level)).Returned?
  }

  /** The stages after a usable transcription: the chat completion, then the speech
      of its first choice at the level's speed. A failure of either is the generic
      500 answer; success carries all three results. */
  function ChatAndSpeech(request: Option<Form>, ai: AiProvider, rt: Runtime): (out: (Response, seq<ProviderCall>))
    requires ReachesChat(request, ai, rt)
    ensures 2 <= |out.1| <= 3
    ensures out.1[0] == TranscribeCall(request.value.audio.value)
    ensures out.1[1] == ChatCall(ChatStageRequest(request, ai, rt))
    ensures |out.1| == 3 ==> out.1[2].SpeechCall?
    ensures out.0 == Failure || (out.0.status == 200 && out.0.body.ConversationBody?)
    ensures out.0.status == 200 <==> AllStagesReturn(request, ai, rt)
  {
    var form := request.value;
    var chatRequest := ChatStageRequest(request, ai, rt);
    var chatted := [TranscribeCall(form.audio.value), ChatCall(chatRequest)];
    var chat := ai.chat(chatRequest);
    if chat.Failed? || |chat.value| == 0 then (Failure, chatted)
    else
      var reply := ReplyText(chat.value);
      var speed := SpeechSpeed(form.level);
      var spoken := chatted + [SpeechCall(reply, speed)];
      var speech := ai.speech(reply, speed);
      if speech.Failed? then (Failure, spoken)
      else
        var transcription := ai.transcribe(form.audio.value).value;
        (Response(200, ConversationBody(ConversationResponse(transcription, reply, rt.base64(speech.value)))),
         spoken)
  }

  /** The route from the transcription on, once the form, its history JSON and its
      audio are usable: a failed transcription is the generic 500, a blank one the
      no-speech 400, a history that is not an array throws when it is mapped, and
      otherwise the chat and speech stages run. */
  function FromTranscription(request: Option<Form>, ai: AiProvider, rt: Runtime): (out: (Response, seq<ProviderCall>))
    requires request.Some? && !ParsedHistory(request.value.history, rt).Unparseable? && request.value.audio.Some?
    ensures 1 <= |out.1| <= 3 && out.1[0] == TranscribeCall(request.value.audio.value)
    ensures |out.1| >= 2 ==> out.1[1].ChatCall?
    ensures |out.1| == 3 ==> out.1[2].SpeechCall?
    ensures || out.0 == Failure
            || out.0 == Response(400, ErrorBody(NoSpeechError))
            || (out.0.status == 200 && out.0.body.ConversationBody?)
    ensures var audio := request.value.audio.value;
            ai.transcribe(audio).Failed? ==> out == (Failure, [TranscribeCall(audio)])
    ensures var audio := request.value.audio.value;
            ai.transcribe(audio).Returned? && IsBlank(ai.transcribe(audio).value) ==>
              out == (Response(400, ErrorBody(NoSpeechError)), [TranscribeCall(audio)])
    ensures var audio := request.value.audio.value;
            && ai.transcribe(audio).Returned? && !IsBlank(ai.transcribe(audio).value)
            && ParsedHistory(request.value.history, rt).NotAnArray? ==>
              out == (Failure, [TranscribeCall(audio)])
    ensures ReachesChat(request, ai, rt) ==> |out.1| >= 2 && out.1[1] == ChatCall(ChatStageRequest(request, ai, rt))
  {
    var audio := request.value.audio.value;
    var transcription := ai.transcribe(audio);
    if transcription.Failed? then (Failure, [TranscribeCall(audio)])
    else if IsBlank(transcription.value) then (Response(400, ErrorBody(NoSpeechError)), [TranscribeCall(audio)])
    // `history.map` on a value that is not an array throws.
    else if ParsedHistory(request.value.history, rt).NotAnArray? then (Failure, [TranscribeCall(audio)])
    else ChatAndSpeech(request, ai, rt)
  }

  /** `POST`: the response, and the provider calls made on the way, in order. */
  function Post(request: Option<Form>, ai: AiProvider, rt: Runtime): (out: (Response, seq<ProviderCall>))
    ensures InStageOrder(out.1)
    ensures out.0.status == 200 || out.0.status == 400 || out.0.status == 500
    ensures out.0.status == 200 <==> out.0.body.ConversationBody?
    ensures out.0.status == 500 ==> out.0 == Failure
  {
    if request.None? || ParsedHistory(request.value.history, rt).Unparseable? then (Failure, [])
    else if request.value.audio.None? then (Response(400, ErrorBody(NoAudioError)), [])
    else FromTranscription(request, ai, rt)
  }

  /** The early exits: a usable form whose history JSON does not parse fails before
      the audio is looked at; missing audio is a 400 before any provider call; every
      400 carries one of the two fixed messages. */
  lemma PostEarlyExits(request: Option<Form>, ai: AiProvider, rt: Runtime)
    ensures var out := Post(request, ai, rt);
            && (request.Some? && ParsedHistory(request.value.history, rt).Unparseable? ==> out == (Failure, []))
            && (out.0 == Response(400, ErrorBody(NoAudioError)) <==>
                  && request.Some? && !ParsedHistory(request.value.history, rt).Unparseable?
                  && request.value.audio.None?)
            && (out.0 == Response(400, ErrorBody(NoAudioError)) ==> out.1 == [])
            && (out.0.status == 400 ==> out.0.body == ErrorBody(NoAudioError) || out.0.body == ErrorBody(NoSpeechError))
  {
    if ReachesChat(request, ai, rt) {
      assert Post(request, ai, rt) == ChatAndSpeech(request, ai, rt);
    }
  }

  /** A history that parses to something other than an array passes the audio check
      and the transcription; the route fails only when it maps the history, after the
      transcription call. */
  lemma PostNonArrayHistory(request: Option<Form>, ai: AiProvider, rt: Runtime)
    requires request.Some? && ParsedHistory(request.value.history, rt).NotAnArray?
    requires request.value.audio.Some?
    requires ai.transcribe(request.value.audio.value).Returned?
    requires !IsBlank(ai.transcribe(request.value.audio.value).value)
    ensures Post(request, ai, rt) == (Failure, [TranscribeCall(request.value.audio.value)])
  {
  }

  /** A blank transcription is a 400 "no speech" answer, and only a blank
      transcription is; the chat stage does not run. */
  lemma PostNoSpeech(request: Option<Form>, ai: AiProvider, rt: Runtime)
    ensures var out := Post(request, ai, rt);
            && (out.0 == Response(400, ErrorBody(NoSpeechError)) <==>
                  && request.Some? && !ParsedHistory(request.value.history, rt).Unparseable?
                  && request.value.audio.Some?
                  && ai.transcribe(request.value.audio.value).Returned?
                  && IsBlank(ai.transcribe(request.value.audio.value).value))
            && (out.0 == Response(400, ErrorBody(NoSpeechError)) ==> out.1 == [TranscribeCall(request.value.audio.value)])
  {
    if ReachesChat(request, ai, rt) {
      assert Post(request, ai, rt) == ChatAndSpeech(request, ai, rt);
    }
  }

  /** The chat stage runs exactly when the history is an array and the transcription
      is usable, with the assembled input. */
  lemma PostChatStage(request: Option<Form>, ai: AiProvider, rt: Runtime)
    ensures var out := Post(request, ai, rt);
            && (|out.1| >= 2 <==> ReachesChat(request, ai, rt))
            && (|out.1| >= 2 ==> out.1[1] == ChatCall(ChatStageRequest(request, ai, rt)))
  {
    if ReachesChat(request, ai, rt) {
      assert Post(request, ai, rt) == ChatAndSpeech(request, ai, rt);
    } else {
      assert |Post(request, ai, rt).1| <= 1;
    }
  }

  /** The answer is a 200 exactly when every stage returns. */
  lemma PostOkIff(request: Option<Form>, ai: AiProvider, rt: Runtime)
    ensures Post(request, ai, rt).0.status == 200 <==> AllStagesReturn(request, ai, rt)
  {
    if ReachesChat(request, ai, rt) {
      assert Post(request, ai, rt) == ChatAndSpeech(request, ai, rt);
    } else {
      assert !AllStagesReturn(request, ai, rt);
      assert Post(request, ai, rt).0.status != 200;
    }
  }

  /** A 200 answer means every stage ran, once each and in order, and it carries the
      transcription, the reply text and the encoded speech of that reply. */
  lemma PostSuccess(request: Option<Form>, ai: AiProvider, rt: Runtime)
    requires Post(request, ai, rt).0.status == 200
    ensures ReachesChat(request, ai, rt)
    ensures var choices := ai.chat(ChatStageRequest(request, ai, rt));
            && choices.Returned? && |choices.value| > 0
            && var reply := ReplyText(choices.value);
            && var speed := SpeechSpeed(request.value.level);
            && ai.speech(reply, speed).Returned?
            && Post(request, ai, rt).1 == [TranscribeCall(request.value.audio.value),
                                           ChatCall(ChatStageRequest(request, ai, rt)),
                                           SpeechCall(reply, speed)]
            && Post(request, ai, rt).0.body.conversation ==
                 ConversationResponse(ai.transcribe(request.value.audio.value).value, reply,
                                      rt.base64(ai.speech(reply, speed).value))
  {
    assert ReachesChat(request, ai, rt);
    assert Post(request, ai, rt) == ChatAndSpeech(request, ai, rt);
  }

  /** When every stage returns, the answer is the 200 with the transcription, the
      reply and the encoded speech, after exactly the three calls in order. */
  lemma PostSucceeds(request: Option<Form>, ai: AiProvider, rt: Runtime)
    requires AllStagesReturn(request, ai, rt)
    ensures var choices := ai.chat(ChatStageRequest(request, ai, rt));
            var reply := ReplyText(choices.value);
            var speed := SpeechSpeed(request.value.level);
            Post(request, ai, rt) ==
              (Response(200, ConversationBody(ConversationResponse(ai.transcribe(request.value.audio.value).value,
                                                                   reply, rt.base64(ai.speech(reply, speed).value)))),
               [TranscribeCall(request.value.audio.value), ChatCall(ChatStageRequest(request, ai, rt)),
                SpeechCall(reply, speed)])
  {
    var chatRequest := ChatStageRequest(request, ai, rt);
    var choices := ai.chat(chatRequest);
    var reply := ReplyText(choices.value);
    var speed := SpeechSpeed(request.value.level);
    var out := ChatAndSpeech(request, ai, rt);
    assert out.1 == [TranscribeCall(request.value.audio.value), ChatCall(chatRequest), SpeechCall(reply, speed)];
    assert out.0 == Response(200, ConversationBody(ConversationResponse(ai.transcribe(request.value.audio.value).value,
                                                                        reply, rt.base64(ai.speech(reply, speed).value))));
    assert Post(request, ai, rt) == out;
  }
}
