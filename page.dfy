/** The home page: a mode switch, a level choice, and in practice mode a single
    recording sent for analysis and shown as a feedback report. */
module Page {
  import opened Wrappers
  import opened Types
  import opened JsBuiltins
  import opened Http
  import opened Provider
  import Recorder
  import AnalyzeRoute
  import Chat

  const NotOkFallback: string := "Error al analizar el audio"
  const UnexpectedError: string := "Ocurrió un error inesperado"

  /** What the main area shows. */
  datatype Screen = ChatScreen | RecorderScreen | FeedbackScreen

  function View(mode: AppMode, feedback: Option<FeedbackResponse>): (s: Screen)
    ensures s.ChatScreen? <==> mode.Conversation?
    ensures s.FeedbackScreen? <==> mode.Practice? && feedback.Some?
    ensures s.RecorderScreen? <==> mode.Practice? && feedback.None?
  {
    if mode.Conversation? then ChatScreen
    else if feedback.None? then RecorderScreen
    else FeedbackScreen
  }

  /** The form sent to the analysis endpoint: the blob and the level code, no history. */
  function AnalysisForm(audio: Blob, level: CEFRLevel): Form {
    Form(Some(audio), Some(LevelCode(level)), None)
  }

  /** Every answer of the analysis endpoint reaches the page as a report on a 200
      and otherwise as a non-OK response whose error string is non-empty, so the
      message shown is the server's own and never a fallback. */
  lemma AnswerReachesClient(request: Option<Form>, ai: AiProvider, rt: Runtime)
    ensures var r := AnalyzeRoute.Post(request, ai, rt).0;
            var f := ReceiveFeedback(r);
            && !f.Threw?
            && (f.Received? <==> r.status == 200)
            && (!f.Received? ==> r.body.ErrorBody? && FailureMessage(f, NotOkFallback, UnexpectedError) == r.body.error)
  {
    AnalyzeRoute.PostEarlyExits(request, ai, rt);
  }

  /** One practice recording end to end: the page receives a report exactly when
      every stage returns, and then it is built from the transcription; otherwise it
      shows an error and no report; blank speech shows the endpoint's no-speech
      message. */
  lemma PracticeEndToEnd(audio: Blob, level: CEFRLevel, ai: AiProvider, rt: Runtime)
    ensures var request := Some(AnalysisForm(audio, level));
            var outcome := ReceiveFeedback(AnalyzeRoute.Post(request, ai, rt).0);
            && (outcome.Received? <==> AnalyzeRoute.Post(request, ai, rt).0.status == 200)
            && (outcome.Received? <==> AnalyzeRoute.AllStagesReturn(request, ai, rt))
            && (outcome.Received? ==>
                  var choices := ai.chat(AnalyzeRoute.AnalysisStageRequest(request, ai, rt));
                  var parsed := rt.parseAnalysis(choices.value[0].value).value;
                  outcome.data == AnalyzeRoute.Merge(ai.transcribe(audio).value, parsed))
            && (ai.transcribe(audio).Returned? && IsBlank(ai.transcribe(audio).value) ==>
                  outcome == NotOk(Some(AnalyzeRoute.NoSpeechError)) &&
                  FailureMessage(outcome, NotOkFallback, UnexpectedError) == AnalyzeRoute.NoSpeechError)
            && (ai.transcribe(audio).Failed? ==>
                  FailureMessage(outcome, NotOkFallback, UnexpectedError) == AnalyzeRoute.AnalysisFailure)
  {
    var request := Some(AnalysisForm(audio, level));
    var out := AnalyzeRoute.Post(request, ai, rt);
    if out.0.status == 200 {
      AnalyzeRoute.PostSuccess(request, ai, rt);
    }
    AnalyzeRoute.PostEarlyExits(request, ai, rt);
    AnalyzeRoute.PostOkIff(request, ai, rt);
  }

  class Home {
    var mode: AppMode
    var selectedLevel: CEFRLevel
    var isAnalyzing: bool
    var feedback: Option<FeedbackResponse>
    var error: Option<string>
    /** The page's own recorder, used in practice mode. */
    const recorder: Recorder.AudioRecorder
    /** The conversation component, mounted exactly in conversation mode. */
    var chat: Chat.ConversationChat?

    ghost predicate Valid()
      reads this, recorder, chat, if chat != null then {chat.recorder} else {}
    {
      && recorder.Valid()
      && (chat != null <==> mode == Conversation)
      && (chat != null ==> chat.Valid() && chat.recorder != recorder)
    }

    /** The error line in practice mode: the page's error, else the recorder's. */
    function Banner(): (r: Option<string>)
      reads this, recorder
      ensures r.None? <==> !Truthy(error) && !Truthy(recorder.state.error)
      ensures Truthy(error) ==> r == error
      ensures !Truthy(error) && Truthy(recorder.state.error) ==> r == recorder.state.error
    {
      FirstTruthy(error, recorder.state.error)
    }

    /** The level line in practice mode: the selected level's row of the table. */
    function CurrentLevel(): (info: LevelInfo)
      reads this
      ensures info.level == selectedLevel
      ensures info == LEVELS[LevelRank(selectedLevel)]
    {
      LevelsTableShape();
      LookupAlwaysFinds(selectedLevel);
      FindLevel(LEVELS, selectedLevel).value
    }

    constructor ()
      ensures Valid() && fresh(recorder) && fresh(chat)
      ensures mode == Conversation && selectedLevel == B1 && !isAnalyzing
      ensures feedback.None? && error.None?
      ensures recorder.Model() == Recorder.InitialModel
      ensures View(mode, feedback) == ChatScreen
    {
      mode := Conversation;
      selectedLevel := B1;
      isAnalyzing := false;
      feedback := None;
      error := None;
      recorder := new Recorder.AudioRecorder();
      chat := new Chat.ConversationChat(true);
    }

    /** `handleSubmit` up to the request: without a blob nothing happens; otherwise
        analysis starts, the error is cleared and the form carries the blob and the
        selected level. Nothing stops a second submission while one is in flight. */
    method BeginAnalyze() returns (form: Option<Form>)
      requires Valid()
      modifies this
      ensures Valid()
      ensures form.Some? <==> recorder.state.audioBlob.Some?
      ensures form.None? ==> unchanged(this)
      ensures form.Some? ==>
                && form.value == AnalysisForm(recorder.state.audioBlob.value, selectedLevel)
                && isAnalyzing && error.None?
                && mode == old(mode) && selectedLevel == old(selectedLevel)
                && feedback == old(feedback) && chat == old(chat)
    {
      if recorder.state.audioBlob.None? {
        return None;
      }
      isAnalyzing := true;
      error := None;
      form := Some(AnalysisForm(recorder.state.audioBlob.value, selectedLevel));
    }

    /** `handleSubmit` from the response on: a report replaces the feedback, a failure
        sets the error; either way analysis ends. The recording is kept. */
    method FinishAnalyze(outcome: Fetched<FeedbackResponse>)
      requires Valid()
      modifies this
      ensures Valid()
      ensures outcome.Received? ==> feedback == Some(outcome.data) && error == old(error)
      ensures !outcome.Received? ==>
                feedback == old(feedback) && error == Some(FailureMessage(outcome, NotOkFallback, UnexpectedError))
      ensures !isAnalyzing
      ensures mode == old(mode) && selectedLevel == old(selectedLevel) && chat == old(chat)
    {
      if outcome.Received? {
        feedback := Some(outcome.data);
      } else {
        error := Some(FailureMessage(outcome, NotOkFallback, UnexpectedError));
      }
      isAnalyzing := false;
    }

    /** `handleNewRecording`: the report and the error go and the recorder is reset,
        which brings practice mode back to the recorder. */
    method NewRecording()
      requires Valid()
      modifies this, recorder
      ensures Valid()
      ensures feedback.None? && error.None?
      ensures recorder.Model() == Recorder.ResetStep(old(recorder.Model()))
      ensures mode == old(mode) && selectedLevel == old(selectedLevel) && chat == old(chat)
      ensures isAnalyzing == old(isAnalyzing)
      ensures mode == Practice ==> View(mode, feedback) == RecorderScreen
    {
      feedback := None;
      recorder.ResetRecording();
      error := None;
    }

    /** `handleModeChange`: the new mode, no report, no error, a reset recorder; the
        conversation component mounts fresh on entering conversation mode and is
        dropped, with its log, on leaving it. */
    method ChangeMode(newMode: AppMode)
      requires Valid()
      modifies this, recorder
      ensures Valid()
      ensures mode == newMode && feedback.None? && error.None?
      ensures recorder.Model() == Recorder.ResetStep(old(recorder.Model()))
      ensures selectedLevel == old(selectedLevel) && isAnalyzing == old(isAnalyzing)
      ensures View(mode, feedback) == if newMode == Conversation then ChatScreen else RecorderScreen
      ensures old(mode) == Conversation && newMode == Conversation ==> chat == old(chat)
      ensures old(mode) == Practice && newMode == Conversation ==>
                fresh(chat) && chat.messages == [] && chat.recorder.Model() == Recorder.InitialModel
    {
      mode := newMode;
      feedback := None;
      recorder.ResetRecording();
      error := None;
      if newMode == Practice {
        chat := null;
      } else if chat == null {
        chat := new Chat.ConversationChat(true);
      }
    }

    /** The level selector: only the level changes. */
    method SelectLevel(level: CEFRLevel)
      requires Valid()
      modifies this
      ensures Valid()
      ensures selectedLevel == level && CurrentLevel().level == level
      ensures mode == old(mode) && isAnalyzing == old(isAnalyzing) && feedback == old(feedback)
      ensures error == old(error) && chat == old(chat)
    {
      selectedLevel := level;
    }
  }
}
