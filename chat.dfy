/** The conversation component: an append-only message log, the request it sends
    after each recording, the two turns a successful reply adds, and one playback
    slot shared by every assistant message. */
module Chat {
  import opened Wrappers
  import opened Types
  import opened JsBuiltins
  import opened Http
  import opened Provider
  import Recorder
  import ConversationRoute

  /** How many of the latest messages go out with a request. */
  const HistoryWindow: nat := 10

  const AudioUrlPrefix: string := "data:audio/mp3;base64,"
  const NotOkFallback: string := "Error al procesar"
  const UnexpectedError: string := "Error inesperado"

  /** A message reduced to what is sent: everything but the audio URL. */
  function Project(m: ConversationMessage): HistoryItem {
    HistoryItem(m.id, m.role, m.content, m.timestamp)
  }

  function Projected(messages: seq<ConversationMessage>): (h: seq<HistoryItem>)
    ensures |h| == |messages|
    ensures forall i | 0 <= i < |h| :: h[i] == Project(messages[i])
  {
    if messages == [] then [] else [Project(messages[0])] + Projected(messages[1..])
  }

  /** `messages.slice(-10).map(...)`: the latest messages, at most ten, oldest first. */
  function HistoryForApi(messages: seq<ConversationMessage>): (h: seq<HistoryItem>)
    ensures |h| == if |messages| < HistoryWindow then |messages| else HistoryWindow
    ensures forall i | 0 <= i < |h| :: h[i] == Project(messages[|messages| - |h| + i])
  {
    var start := if |messages| > HistoryWindow then |messages| - HistoryWindow else 0;
    Projected(messages[start..])
  }

  /** After a turn the window ends with that turn's two messages, and it is the
      previous window slid by two, capped at ten. */
  lemma WindowAfterTurn(log: seq<ConversationMessage>, user: ConversationMessage, assistant: ConversationMessage)
    ensures var h := HistoryForApi(log + [user, assistant]);
            |h| >= 2 && h[|h| - 2] == Project(user) && h[|h| - 1] == Project(assistant)
    ensures WindowSlides(HistoryForApi(log), HistoryForApi(log + [user, assistant]))
  {
    var ext := log + [user, assistant];
    assert ext[|ext| - 2] == user && ext[|ext| - 1] == assistant;
    OldWindowSuffix(log, user, assistant, HistoryForApi(ext), HistoryForApi(log));
  }

  /** All of `h` but its last two items are the latest items of `g`. */
  ghost predicate WindowSlides(g: seq<HistoryItem>, h: seq<HistoryItem>) {
    2 <= |h| <= |g| + 2 && forall i | 0 <= i < |h| - 2 :: h[i] == g[|g| - (|h| - 2) + i]
  }

  lemma OldWindowSuffix(log: seq<ConversationMessage>, user: ConversationMessage, assistant: ConversationMessage,
                        h: seq<HistoryItem>, g: seq<HistoryItem>)
    requires h == HistoryForApi(log + [user, assistant]) && g == HistoryForApi(log)
    ensures WindowSlides(g, h)
  {
    forall i | 0 <= i < |h| - 2
      ensures h[i] == g[|g| - (|h| - 2) + i]
    {
      OldWindowItem(log, user, assistant, h, g, i);
    }
  }

  lemma OldWindowItem(log: seq<ConversationMessage>, user: ConversationMessage, assistant: ConversationMessage,
                      h: seq<HistoryItem>, g: seq<HistoryItem>, i: nat)
    requires h == HistoryForApi(log + [user, assistant]) && g == HistoryForApi(log)
    requires i < |h| - 2
    ensures |h| <= |g| + 2 && h[i] == g[|g| - (|h| - 2) + i]
  {
    var ext := log + [user, assistant];
    assert |h| == if |ext| < HistoryWindow then |ext| else HistoryWindow;
    assert |g| == if |log| < HistoryWindow then |log| else HistoryWindow;
    var k := |ext| - |h| + i;
    assert k < |log| && ext[k] == log[k];
    WindowAt(ext, i);
    var j := |g| - (|h| - 2) + i;
    assert |log| - |g| + j == k;
    WindowAt(log, j);
  }

  /** Item `i` of the window is the projection of its message in the log. */
  lemma WindowAt(messages: seq<ConversationMessage>, i: nat)
    requires i < |HistoryForApi(messages)|
    ensures HistoryForApi(messages)[i] == Project(messages[|messages| - |HistoryForApi(messages)| + i])
  {
  }

  /** The four clock readings `handleSubmit` takes, in program order: the user
      message's id and timestamp, then the assistant message's id (before one is
      added) and timestamp. */
  datatype ClockReadings = ClockReadings(userId: nat, userTime: nat, assistantId: nat, assistantTime: nat)

  function AssistantAudioUrl(audioBase64: string): string {
    AudioUrlPrefix + audioBase64
  }

  function UserTurn(data: ConversationResponse, clock: ClockReadings): ConversationMessage {
    ConversationMessage(NatToDecimal(clock.userId), User, data.transcription, None, clock.userTime)
  }

  function AssistantTurn(data: ConversationResponse, clock: ClockReadings): ConversationMessage {
    ConversationMessage(NatToDecimal(clock.assistantId + 1), Assistant, data.response,
                        Some(AssistantAudioUrl(data.audioBase64)), clock.assistantTime)
  }

  /** The log once a request has settled. */
  function LogAfter(log: seq<ConversationMessage>, outcome: Fetched<ConversationResponse>,
                    clock: ClockReadings): seq<ConversationMessage>
  {
    if outcome.Received? then log + [UserTurn(outcome.data, clock), AssistantTurn(outcome.data, clock)]
    else log
  }

  /** A received reply adds exactly two messages to the end, the transcription as the
      user's and the reply with its audio as the assistant's; anything else leaves
      the log as it was. */
  lemma TurnAppendsTwo(log: seq<ConversationMessage>, outcome: Fetched<ConversationResponse>, clock: ClockReadings)
    ensures !outcome.Received? ==> LogAfter(log, outcome, clock) == log
    ensures outcome.Received? ==>
              var after := LogAfter(log, outcome, clock);
              && |after| == |log| + 2 && after[..|log|] == log
              && after[|log|].role == User && after[|log|].content == outcome.data.transcription
              && after[|log|].audioUrl.None?
              && after[|log| + 1].role == Assistant && after[|log| + 1].content == outcome.data.response
              && after[|log| + 1].audioUrl == Some(AudioUrlPrefix + outcome.data.audioBase64)
  {
  }

  /** The two new messages get different ids as long as the clock did not go back
      between its first and third readings. */
  lemma TurnIdsDistinct(data: ConversationResponse, clock: ClockReadings)
    requires clock.userId <= clock.assistantId
    ensures UserTurn(data, clock).id != AssistantTurn(data, clock).id
  {
    NatToDecimalInjective(clock.userId, clock.assistantId + 1);
  }

  /** `isPlaying && currentPlayingId === message.id`: the bubble shows as playing. */
  predicate MarkedPlaying(isPlaying: bool, currentPlayingId: Option<string>, m: ConversationMessage) {
    isPlaying && currentPlayingId == Some(m.id)
  }

  /** In a log whose ids are distinct, at most one message shows as playing. */
  lemma AtMostOneMarked(isPlaying: bool, currentPlayingId: Option<string>, log: seq<ConversationMessage>)
    requires forall i, j | 0 <= i < |log| && 0 <= j < |log| && i != j :: log[i].id != log[j].id
    ensures forall i, j | 0 <= i < |log| && 0 <= j < |log| ::
              MarkedPlaying(isPlaying, currentPlayingId, log[i]) && MarkedPlaying(isPlaying, currentPlayingId, log[j]) ==> i == j
  {
  }

  /** What the component puts in its form: the blob, the level code and the window. */
  datatype SubmitForm = SubmitForm(audio: Blob, level: string, history: seq<HistoryItem>)

  /** The form as the route reads it, the history serialized by `stringify`. */
  function AsForm(f: SubmitForm, stringify: seq<HistoryItem> -> string): Form {
    Form(Some(f.audio), Some(f.level), Some(stringify(f.history)))
  }

  /** Every answer of the conversation endpoint reaches the component as its data
      on a 200 and otherwise as a non-OK response whose error string is non-empty,
      so the message shown is the server's own and never a fallback. */
  lemma AnswerReachesClient(request: Option<Http.Form>, ai: AiProvider, rt: Runtime)
    ensures var r := ConversationRoute.Post(request, ai, rt).0;
            var f := ReceiveConversation(r);
            && !f.Threw?
            && (f.Received? <==> r.status == 200)
            && (!f.Received? ==> r.body.ErrorBody? && FailureMessage(f, NotOkFallback, UnexpectedError) == r.body.error)
  {
    ConversationRoute.PostEarlyExits(request, ai, rt);
  }

  /** One turn end to end, with a serializer whose output the route parses back: the
      log either stays as it was or gains exactly the user message and the assistant
      message, in that order, and it gains them exactly when every provider stage
      returns; the chat stage, when it runs, sees the window plus two messages; blank
      speech reaches the client as the no-speech error and adds nothing. */
  lemma TurnEndToEnd(log: seq<ConversationMessage>, level: CEFRLevel, audio: Blob, ai: AiProvider,
                     rt: Runtime, stringify: seq<HistoryItem> -> string, clock: ClockReadings)
    requires ConversationRoute.ParsedHistory(Some(stringify(HistoryForApi(log))), rt) == Items(HistoryForApi(log))
    ensures var out := ConversationRoute.Post(Some(AsForm(SubmitForm(audio, LevelCode(level), HistoryForApi(log)), stringify)), ai, rt);
            var after := LogAfter(log, ReceiveConversation(out.0), clock);
            && (after == log || (|after| == |log| + 2 && after[..|log|] == log &&
                                 after[|log|].role == User && after[|log| + 1].role == Assistant &&
                                 after[|log|].content == ai.transcribe(audio).value))
            && (|after| == |log| + 2 <==> out.0.status == 200)
            && (out.0.status == 200 <==> ConversationRoute.AllStagesReturn(
                                           Some(AsForm(SubmitForm(audio, LevelCode(level), HistoryForApi(log)), stringify)), ai, rt))
            && (|out.1| >= 2 ==> out.1[1].ChatCall? &&
                                 |out.1[1].request.messages| == |HistoryForApi(log)| + 2 <= HistoryWindow + 2)
            && (ai.transcribe(audio).Returned? && IsBlank(ai.transcribe(audio).value) ==>
                  ReceiveConversation(out.0) == NotOk(Some(ConversationRoute.NoSpeechError)) && after == log)
  {
    var request := Some(AsForm(SubmitForm(audio, LevelCode(level), HistoryForApi(log)), stringify));
    var out := ConversationRoute.Post(request, ai, rt);
    if out.0.status == 200 {
      ConversationRoute.PostSuccess(request, ai, rt);
    }
    ConversationRoute.PostNoSpeech(request, ai, rt);
    ConversationRoute.PostOkIff(request, ai, rt);
    ConversationRoute.PostChatStage(request, ai, rt);
    TurnAppendsTwo(log, ReceiveConversation(out.0), clock);
  }

  /** The opening turn: with an empty log the request sends an empty history, and a
      reply to "I sink so" leaves a log of exactly the user's message and then the
      assistant's. */
  lemma FirstTurnScenario(audio: Blob, ai: AiProvider, rt: Runtime, stringify: seq<HistoryItem> -> string,
                          clock: ClockReadings, reply: string, speech: seq<byte>)
    requires ConversationRoute.ParsedHistory(Some(stringify([])), rt) == Items([])
    requires ai.transcribe(audio) == Returned("I sink so")
    requires forall r :: ai.chat(r) == Returned([Some(reply)])
    requires forall t, s :: ai.speech(t, s) == Returned(speech)
    ensures HistoryForApi([]) == []
    ensures var out := ConversationRoute.Post(Some(AsForm(SubmitForm(audio, LevelCode(B1), []), stringify)), ai, rt);
            var after := LogAfter([], ReceiveConversation(out.0), clock);
            && |after| == 2 && after[0].role == User && after[0].content == "I sink so"
            && after[1].role == Assistant && after[1].content == OrElse(Some(reply), "")
  {
    var request := Some(AsForm(SubmitForm(audio, LevelCode(B1), []), stringify));
    assert !IsBlank("I sink so") by {
      BlankIffAllTrimmable("I sink so");
      assert !IsTrimmable("I sink so"[0]);
    }
    var out := ConversationRoute.Post(request, ai, rt);
    assert out.0.status == 200;
    ConversationRoute.PostSuccess(request, ai, rt);
  }

  class ConversationChat {
    const recorder: Recorder.AudioRecorder
    /** The hidden audio element is mounted. */
    const hasAudioElement: bool
    var messages: seq<ConversationMessage>
    var isProcessing: bool
    var isPlaying: bool
    var currentPlayingId: Option<string>
    var error: Option<string>
    /** The audio element's `src`. */
    var audioSrc: Option<string>

    ghost predicate Valid()
      reads this, recorder
    {
      recorder.Valid() && (isPlaying <==> currentPlayingId.Some?)
    }

    /** The error banner's text: the component's own error, else the recorder's. */
    function Banner(): (r: Option<string>)
      reads this, recorder
      ensures r.None? <==> !Truthy(error) && !Truthy(recorder.state.error)
      ensures Truthy(error) ==> r == error
      ensures !Truthy(error) && Truthy(recorder.state.error) ==> r == recorder.state.error
    {
      FirstTruthy(error, recorder.state.error)
    }

    constructor (hasAudioElement: bool)
      ensures Valid() && fresh(recorder) && this.hasAudioElement == hasAudioElement
      ensures recorder.Model() == Recorder.InitialModel
      ensures messages == [] && !isProcessing && !isPlaying && currentPlayingId.None?
      ensures error.None? && audioSrc.None?
    {
      recorder := new Recorder.AudioRecorder();
      this.hasAudioElement := hasAudioElement;
      messages := [];
      isProcessing := false;
      isPlaying := false;
      currentPlayingId := None;
      error := None;
      audioSrc := None;
    }

    /** `handleSubmit` up to the request: nothing happens without a blob or while a
        submission is in flight; otherwise processing starts, the error is cleared and
        the form is built from the blob, the level and the history window. */
    method BeginSubmit(level: CEFRLevel) returns (form: Option<SubmitForm>)
      requires Valid()
      modifies this
      ensures Valid()
      ensures form.Some? <==> recorder.state.audioBlob.Some? && !old(isProcessing)
      ensures form.None? ==> unchanged(this)
      ensures form.Some? ==>
                && form.value == SubmitForm(recorder.state.audioBlob.value, LevelCode(level), HistoryForApi(messages))
                && isProcessing && error.None?
                && messages == old(messages) && isPlaying == old(isPlaying)
                && currentPlayingId == old(currentPlayingId) && audioSrc == old(audioSrc)
    {
      if recorder.state.audioBlob.None? || isProcessing {
        return None;
      }
      isProcessing := true;
      error := None;
      form := Some(SubmitForm(recorder.state.audioBlob.value, LevelCode(level), HistoryForApi(messages)));
    }

    /** `handleSubmit` from the response on: a received reply appends the two turns
        and plays the reply; a failure sets the error and leaves the log alone; either
        way processing ends and the recorder is reset. */
    method FinishSubmit(outcome: Fetched<ConversationResponse>, clock: ClockReadings)
      requires Valid() && isProcessing
      modifies this, recorder
      ensures Valid()
      ensures messages == LogAfter(old(messages), outcome, clock)
      ensures outcome.Received? ==> error == old(error)
      ensures !outcome.Received? ==> error == Some(FailureMessage(outcome, NotOkFallback, UnexpectedError))
      ensures !isProcessing
      ensures recorder.Model() == Recorder.ResetStep(old(recorder.Model()))
      ensures outcome.Received? && hasAudioElement ==>
                && isPlaying && currentPlayingId == Some(AssistantTurn(outcome.data, clock).id)
                && audioSrc == Some(AssistantAudioUrl(outcome.data.audioBase64))
      ensures !(outcome.Received? && hasAudioElement) ==>
                isPlaying == old(isPlaying) && currentPlayingId == old(currentPlayingId) && audioSrc == old(audioSrc)
    {
      if outcome.Received? {
        var data := outcome.data;
        var userMessage := UserTurn(data, clock);
        var audioUrl := AssistantAudioUrl(data.audioBase64);
        var assistantMessage := AssistantTurn(data, clock);
        messages := messages + [userMessage, assistantMessage];
        PlayAudio(audioUrl, assistantMessage.id);
      } else {
        error := Some(FailureMessage(outcome, NotOkFallback, UnexpectedError));
      }
      isProcessing := false;
      recorder.ResetRecording();
    }

    /** The effect that submits once a blob exists and recording has stopped. */
    method AutoSubmit(level: CEFRLevel) returns (form: Option<SubmitForm>)
      requires Valid()
      modifies this
      ensures Valid()
      ensures form.Some? <==> recorder.state.audioBlob.Some? && !recorder.state.isRecording && !old(isProcessing)
      ensures form.None? ==> unchanged(this)
      ensures form.Some? ==>
                && form.value == SubmitForm(recorder.state.audioBlob.value, LevelCode(level), HistoryForApi(messages))
                && isProcessing && error.None? && messages == old(messages)
                && isPlaying == old(isPlaying) && currentPlayingId == old(currentPlayingId)
                && audioSrc == old(audioSrc)
    {
      if recorder.state.audioBlob.Some? && !recorder.state.isRecording {
        form := BeginSubmit(level);
      } else {
        form := None;
      }
    }

    /** The microphone button, disabled while a submission is in flight: it stops a
        running recording and otherwise starts one. */
    method MicButton(outcome: Recorder.StartOutcome)
      requires Valid() && !isProcessing
      modifies recorder
      ensures Valid()
      ensures old(recorder.state.isRecording) ==> recorder.Model() == Recorder.StopStep(old(recorder.Model()))
      ensures !old(recorder.state.isRecording) ==> recorder.Model() == Recorder.StartStep(old(recorder.Model()), outcome)
    {
      if recorder.state.isRecording {
        recorder.StopRecording();
      } else {
        recorder.StartRecording(outcome);
      }
    }

    /** `playAudio`: with the audio element mounted, its source becomes `url` and `id`
        takes the single playing slot, displacing any other. */
    method PlayAudio(url: string, id: string)
      requires Valid()
      modifies this
      ensures Valid()
      ensures hasAudioElement ==> audioSrc == Some(url) && isPlaying && currentPlayingId == Some(id)
      ensures !hasAudioElement ==>
                audioSrc == old(audioSrc) && isPlaying == old(isPlaying) && currentPlayingId == old(currentPlayingId)
      ensures messages == old(messages) && error == old(error) && isProcessing == old(isProcessing)
    {
      if hasAudioElement {
        audioSrc := Some(url);
        isPlaying := true;
        currentPlayingId := Some(id);
      }
    }

    /** `stopAudio`: with the audio element mounted, the playing slot is emptied. */
    method StopAudio()
      requires Valid()
      modifies this
      ensures Valid()
      ensures hasAudioElement ==> !isPlaying && currentPlayingId.None?
      ensures !hasAudioElement ==> isPlaying == old(isPlaying) && currentPlayingId == old(currentPlayingId)
      ensures messages == old(messages) && error == old(error) && isProcessing == old(isProcessing)
      ensures audioSrc == old(audioSrc)
    {
      if hasAudioElement {
        isPlaying := false;
        currentPlayingId := None;
      }
    }

    /** The audio element's `ended` and `pause` events: the playing slot is emptied. */
    method OnPlaybackEnded()
      requires Valid()
      modifies this
      ensures Valid()
      ensures !isPlaying && currentPlayingId.None?
      ensures messages == old(messages) && error == old(error) && isProcessing == old(isProcessing)
      ensures audioSrc == old(audioSrc)
    {
      isPlaying := false;
      currentPlayingId := None;
    }

    /** `clearConversation`: the log and the error are emptied and playback stops. */
    method ClearConversation()
      requires Valid()
      modifies this
      ensures Valid()
      ensures messages == [] && error.None? && isProcessing == old(isProcessing)
      ensures audioSrc == old(audioSrc)
      ensures hasAudioElement ==> !isPlaying && currentPlayingId.None?
      ensures !hasAudioElement ==> isPlaying == old(isPlaying) && currentPlayingId == old(currentPlayingId)
    {
      messages := [];
      error := None;
      StopAudio();
    }

    /** A click on an assistant bubble's audio button: stop if that bubble shows as
        playing, otherwise play its audio. */
    method ToggleBubble(m: ConversationMessage)
      requires Valid() && m.role == Assistant && m.audioUrl.Some?
      modifies this
      ensures Valid()
      ensures old(MarkedPlaying(isPlaying, currentPlayingId, m)) && hasAudioElement ==>
                !isPlaying && currentPlayingId.None?
      ensures !old(MarkedPlaying(isPlaying, currentPlayingId, m)) && hasAudioElement ==>
                MarkedPlaying(isPlaying, currentPlayingId, m) && audioSrc == m.audioUrl
      ensures !hasAudioElement ==> isPlaying == old(isPlaying) && currentPlayingId == old(currentPlayingId)
      ensures old(MarkedPlaying(isPlaying, currentPlayingId, m)) || !hasAudioElement ==> audioSrc == old(audioSrc)
      ensures messages == old(messages) && error == old(error) && isProcessing == old(isProcessing)
    {
      if MarkedPlaying(isPlaying, currentPlayingId, m) {
        StopAudio();
      } else {
        PlayAudio(m.audioUrl.value, m.id);
      }
    }
  }
}
