/** The external collaborators of the two routes, as functions of their inputs:
    the AI provider's transcription, chat-completion and speech endpoints, and the
    runtime's JSON parsing and base64 encoding. None of them is defined here. */
module Provider {
  import opened Wrappers
  import opened Types

  /** The outcome of one awaited call: it threw, or it returned a value. */
  datatype Stage<T> = Failed | Returned(value: T)

  datatype ChatRole = SystemRole | UserRole | AssistantRole

  datatype ChatMessage = ChatMessage(role: ChatRole, content: string)

  /** A chat-completion request; `jsonObject` is the JSON response format the
      analyze route asks for. Model name, temperature and token limit are constants
      of each route and are not represented. */
  datatype ChatRequest = ChatRequest(messages: seq<ChatMessage>, jsonObject: bool)

  /** A call a route makes to the provider. */
  datatype ProviderCall =
    | TranscribeCall(file: Blob)
    | ChatCall(request: ChatRequest)
    | SpeechCall(input: string, speed: real)

  /** The provider. `chat` returns the `message.content` of each choice, null as None. */
  datatype AiProvider = AiProvider(
    transcribe: Blob -> Stage<string>,
    chat: ChatRequest -> Stage<seq<Option<string>>>,
    speech: (string, real) -> Stage<seq<byte>>)

  /** The analysis object the model's JSON parses into: every report field except the
      transcription, plus a `transcription` key if the JSON happens to carry one. */
  datatype Analysis = Analysis(
    transcription: Option<string>,
    overallScore: int,
    pronunciation: ScoredNote,
    grammar: GrammarNote,
    vocabulary: VocabularyNote,
    fluency: ScoredNote,
    encouragement: string,
    practiceTopics: seq<string>)

  /** What `JSON.parse` makes of the history field: it throws, it gives a value that
      is not an array (`{}`, `null`, `5`), or it gives an array of messages. */
  datatype HistoryJson = Unparseable | NotAnArray | Items(items: seq<HistoryItem>)

  /** Runtime services: `JSON.parse` of the history and of the analysis content,
      base64 encoding, and the two prompt builders, which are fixed text around the
      level. The analysis parse gives None when `JSON.parse` throws; content that
      parses to a value other than a complete report is outside this model. */
  datatype Runtime = Runtime(
    parseHistory: string -> HistoryJson,
    parseAnalysis: string -> Option<Analysis>,
    base64: seq<byte> -> string,
    conversationPrompt: Option<string> -> string,
    analysisPrompt: Option<string> -> string)

  /** The calls are the first stages of transcribe-then-chat-then-speech, once each,
      in that order. */
  predicate InStageOrder(calls: seq<ProviderCall>) {
    && |calls| <= 3
    && (|calls| >= 1 ==> calls[0].TranscribeCall?)
    && (|calls| >= 2 ==> calls[1].ChatCall?)
    && (|calls| == 3 ==> calls[2].SpeechCall?)
  }
}
