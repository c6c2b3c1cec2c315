/** The analyze endpoint: check the audio, transcribe, reject blank speech, ask the
    chat model for a JSON analysis, parse it, and answer with the transcription
    merged into the analysis; any thrown error becomes one 500 answer. */
module AnalyzeRoute {
  import opened Wrappers
  import opened Types
  import opened JsBuiltins
  import opened Http
  import opened Provider

  const NoAudioError: string := "No audio file provided"
  const NoSpeechError: string := "No speech detected in the audio"
  const AnalysisFailure: string := "Failed to analyze audio. Please try again."

  const Failure: Response := Response(500, ErrorBody(AnalysisFailure))

  /** The user message that carries the transcription to the analysis. */
  function AnalysisRequestText(level: Option<string>, text: string): string {
    "Please analyze the following English speech from a " + Interpolate(level)
      + " level Spanish-speaking student:\n\n\"" + text + "\""
  }

  /** The report without its transcription: what the analysis supplies. */
  function AnalysisPart(r: FeedbackResponse): Analysis {
    Analysis(None, r.overallScore, r.pronunciation, r.grammar, r.vocabulary, r.fluency,
             r.encouragement, r.practiceTopics)
  }

  /** `{ transcription: text, ...analysis }`: the analysis is spread last, so a
      `transcription` key in it wins over the transcribed text. */
  function Merge(text: string, a: Analysis): (r: FeedbackResponse)
    ensures AnalysisPart(r) == a.(transcription := None)
    ensures a.transcription.None? ==> r.transcription == text
    ensures a.transcription.Some? ==> r.transcription == a.transcription.value
  {
    var transcription := if a.transcription.Some? then a.transcription.value else text;
    FeedbackResponse(transcription, a.overallScore, a.pronunciation, a.grammar, a.vocabulary,
                     a.fluency, a.encouragement, a.practiceTopics)
  }

  /** Merging a report's transcription back into its analysis part gives the report. */
  lemma MergeRoundTrip(r: FeedbackResponse)
    ensures Merge(r.transcription, AnalysisPart(r)) == r
  {
  }

  /** The form and its audio are present and the transcription is usable: the point
      from which the analysis stage runs. */
  predicate ReachesAnalysis(request: Option<Form>, ai: AiProvider) {
    && request.Some?
    && request.value.audio.Some?
    && ai.transcribe(request.value.audio.value).Returned?
    && !IsBlank(ai.transcribe(request.value.audio.value).value)
  }

  /** The analysis request: the level's system prompt and the transcription, asking
      for a JSON object. */
  function AnalysisStageRequest(request: Option<Form>, ai: AiProvider, rt: Runtime): ChatRequest
    requires ReachesAnalysis(request, ai)
  {
    var level := request.value.level;
    ChatRequest([ChatMessage(SystemRole, rt.analysisPrompt(level)),
                 ChatMessage(UserRole, AnalysisRequestText(level, ai.transcribe(request.value.audio.value).value))],
                true)
  }

  /** The analysis stage is reached, its first choice has content, and the content
      parses. */
  predicate AllStagesReturn(request: Option<Form>, ai: AiProvider, rt: Runtime) {
    && ReachesAnalysis(request, ai)
    && var choices := ai.chat(AnalysisStageRequest(request, ai, rt));
    && choices.Returned? && |choices.value| > 0 && Truthy(choices.value[0])
    && rt.parseAnalysis(choices.value[0].value).Some?
  }

  /** The stages after a usable transcription: the analysis completion, then the
      parse of its first choice. Missing or empty content and content that does not
      parse are thrown, like a provider failure, so each is the generic 500 answer. */
  function AnalyzeAndParse(request: Option<Form>, ai: AiProvider, rt: Runtime): (out: (Response, seq<ProviderCall>))
    requires ReachesAnalysis(request, ai)
    ensures out.1 == [TranscribeCall(request.value.audio.value), ChatCall(AnalysisStageRequest(request, ai, rt))]
    ensures out.0 == Failure || (out.0.status == 200 && out.0.body.FeedbackBody?)
    ensures out.0.status == 200 <==> AllStagesReturn(request, ai, rt)
  {
    var analysisRequest := AnalysisStageRequest(request, ai, rt);
    var analyzed := [TranscribeCall(request.value.audio.value), ChatCall(analysisRequest)];
    var chat := ai.chat(analysisRequest);
    if chat.Failed? || |chat.value| == 0 then (Failure, analyzed)
    else
      var content := chat.value[0];
      if !Truthy(content) then (Failure, analyzed)
      else
        var analysis := rt.parseAnalysis(content.value);
        if analysis.None? then (Failure, analyzed)
        else
          var transcription := ai.transcribe(request.value.audio.value).value;
          (Response(200, FeedbackBody(Merge(transcription, analysis.value))), analyzed)
  }

  /** `POST`: the response, and the provider calls made on the way, in order. */
  function Post(request: Option<Form>, ai: AiProvider, rt: Runtime): (out: (Response, seq<ProviderCall>))
    ensures InStageOrder(out.1) && |out.1| <= 2
    ensures out.0.status == 200 || out.0.status == 400 || out.0.status == 500
    ensures out.0.status == 200 <==> out.0.body.FeedbackBody?
    ensures out.0.status == 500 ==> out.0 == Failure
  {
    if request.None? then (Failure, [])
    else if request.value.audio.None? then (Response(400, ErrorBody(NoAudioError)), [])
    else
      var audio := request.value.audio.value;
      var transcription := ai.transcribe(audio);
      if transcription.Failed? then (Failure, [TranscribeCall(audio)])
      else if IsBlank(transcription.value) then (Response(400, ErrorBody(NoSpeechError)), [TranscribeCall(audio)])
      else AnalyzeAndParse(request, ai, rt)
  }

  /** The early exits: missing audio is a 400 before any provider call, and a blank
      transcription, and only that, is a 400 after the transcription alone. */
  lemma PostEarlyExits(request: Option<Form>, ai: AiProvider, rt: Runtime)
    ensures var out := Post(request, ai, rt);
            && (out.0 == Response(400, ErrorBody(NoAudioError)) <==> request.Some? && request.value.audio.None?)
            && (out.0 == Response(400, ErrorBody(NoAudioError)) ==> out.1 == [])
            && (out.0 == Response(400, ErrorBody(NoSpeechError)) <==>
                  && request.Some? && request.value.audio.Some?
                  && ai.transcribe(request.value.audio.value).Returned?
                  && IsBlank(ai.transcribe(request.value.audio.value).value))
            && (out.0.status == 400 ==> out.0.body == ErrorBody(NoAudioError) || out.0.body == ErrorBody(NoSpeechError))
            && (out.0 == Response(400, ErrorBody(NoSpeechError)) ==> out.1 == [TranscribeCall(request.value.audio.value)])
  {
    if ReachesAnalysis(request, ai) {
      var out := AnalyzeAndParse(request, ai, rt);
      assert Post(request, ai, rt) == out;
      assert out.0.status != 400;
    } else if request.Some? && request.value.audio.Some? {
      var audio := request.value.audio.value;
      assert Post(request, ai, rt).1 == [TranscribeCall(audio)];
    }
  }

  /** The analysis stage runs exactly after a usable transcription, with the level's
      system prompt and request text in JSON mode. */
  lemma PostAnalysisStage(request: Option<Form>, ai: AiProvider, rt: Runtime)
    ensures var out := Post(request, ai, rt);
            && (|out.1| == 2 <==> ReachesAnalysis(request, ai))
            && (|out.1| == 2 ==> out.1[1] == ChatCall(AnalysisStageRequest(request, ai, rt)))
  {
    if ReachesAnalysis(request, ai) {
      assert Post(request, ai, rt) == AnalyzeAndParse(request, ai, rt);
    } else if request.Some? && request.value.audio.Some? {
      var audio := request.value.audio.value;
      assert ai.transcribe(audio).Failed? || IsBlank(ai.transcribe(audio).value);
      assert Post(request, ai, rt).1 == [TranscribeCall(audio)];
    } else {
      assert Post(request, ai, rt).1 == [];
    }
  }

  /** The answer is a 200 exactly when every stage returns. */
  lemma PostOkIff(request: Option<Form>, ai: AiProvider, rt: Runtime)
    ensures Post(request, ai, rt).0.status == 200 <==> AllStagesReturn(request, ai, rt)
  {
    if ReachesAnalysis(request, ai) {
      assert Post(request, ai, rt) == AnalyzeAndParse(request, ai, rt);
    } else {
      assert !AllStagesReturn(request, ai, rt);
      assert Post(request, ai, rt).0.status != 200;
    }
  }

  /** A 200 answer means the analysis content was present and parsed, and the report
      is the transcription merged with the parsed analysis. */
  lemma PostSuccess(request: Option<Form>, ai: AiProvider, rt: Runtime)
    requires Post(request, ai, rt).0.status == 200
    ensures ReachesAnalysis(request, ai)
    ensures var choices := ai.chat(AnalysisStageRequest(request, ai, rt));
            && choices.Returned? && |choices.value| > 0 && Truthy(choices.value[0])
            && rt.parseAnalysis(choices.value[0].value).Some?
            && Post(request, ai, rt).0.body.feedback ==
                 Merge(ai.transcribe(request.value.audio.value).value,
                       rt.parseAnalysis(choices.value[0].value).value)
  {
    assert AllStagesReturn(request, ai, rt);
    PostSucceeds(request, ai, rt);
  }

  /** When the transcription is usable and the analysis content is present and
      parses, the answer is the 200 with the merged report, after exactly the two
      calls in order. */
  lemma PostSucceeds(request: Option<Form>, ai: AiProvider, rt: Runtime)
    requires AllStagesReturn(request, ai, rt)
    ensures var choices := ai.chat(AnalysisStageRequest(request, ai, rt));
            Post(request, ai, rt) ==
              (Response(200, FeedbackBody(Merge(ai.transcribe(request.value.audio.value).value,
                                                rt.parseAnalysis(choices.value[0].value).value))),
               [TranscribeCall(request.value.audio.value), ChatCall(AnalysisStageRequest(request, ai, rt))])
  {
    var analysisRequest := AnalysisStageRequest(request, ai, rt);
    var chat := ai.chat(analysisRequest);
    var content := chat.value[0];
    var analysis := rt.parseAnalysis(content.value);
    var out := AnalyzeAndParse(request, ai, rt);
    assert out.0 == Response(200, FeedbackBody(Merge(ai.transcribe(request.value.audio.value).value, analysis.value)));
    assert Post(request, ai, rt) == out;
  }

  /** Missing or empty analysis content, or content that does not parse, is the
      same 500 answer as a provider failure. */
  lemma UnusableAnalysisFails(request: Option<Form>, ai: AiProvider, rt: Runtime)
    requires ReachesAnalysis(request, ai)
    requires var choices := ai.chat(AnalysisStageRequest(request, ai, rt));
             choices.Returned? && |choices.value| > 0 &&
             (!Truthy(choices.value[0]) || rt.parseAnalysis(choices.value[0].value).None?)
    ensures Post(request, ai, rt).0 == Failure
  {
    assert Post(request, ai, rt) == AnalyzeAndParse(request, ai, rt);
  }
}
