/** The shared data model of the application: proficiency levels, modes, the
    feedback report, conversation messages and the recorder's state record. */
module Types {
  import opened Wrappers

  /** The six CEFR proficiency tiers, lowest first. */
  datatype CEFRLevel = A1 | A2 | B1 | B2 | C1 | C2

  datatype AppMode = Practice | Conversation

  /** One row of the level table: display name, description and two style classes. */
  datatype LevelInfo = LevelInfo(level: CEFRLevel, name: string, description: string,
                                 color: string, bgColor: string)

  datatype Correction = Correction(original: string, corrected: string, explanation: string)

  /** The pronunciation and fluency sub-records share this shape. */
  datatype ScoredNote = ScoredNote(score: int, feedback: string)

  datatype GrammarNote = GrammarNote(score: int, corrections: seq<Correction>)

  datatype VocabularyNote = VocabularyNote(score: int, feedback: string, suggestions: seq<string>)

  /** The practice-mode report. Scores are whatever the provider returned: nothing
      in the code bounds them. */
  datatype FeedbackResponse = FeedbackResponse(
    transcription: string,
    overallScore: int,
    pronunciation: ScoredNote,
    grammar: GrammarNote,
    vocabulary: VocabularyNote,
    fluency: ScoredNote,
    encouragement: string,
    practiceTopics: seq<string>)

  datatype Role = User | Assistant

  /** A conversation turn. The timestamp is a clock reading in milliseconds. */
  datatype ConversationMessage = ConversationMessage(id: string, role: Role, content: string,
                                                     audioUrl: Option<string>, timestamp: nat)

  /** A message as the client sends it in the `history` field: no audio URL. */
  datatype HistoryItem = HistoryItem(id: string, role: Role, content: string, timestamp: nat)

  /** The conversation route's success body. */
  datatype ConversationResponse = ConversationResponse(transcription: string, response: string,
                                                       audioBase64: string)

  newtype byte = x: int | 0 <= x < 256

  /** A binary object: its bytes and its MIME type tag. Its size is `|bytes|`. */
  datatype Blob = Blob(bytes: seq<byte>, mimeType: string)

  /** A handle made by `URL.createObjectURL`, told apart by a serial number. */
  datatype ObjectUrl = ObjectUrl(serial: nat)

  /** The recorder's four-field state record. */
  datatype AudioRecorderState = AudioRecorderState(isRecording: bool, audioBlob: Option<Blob>,
                                                   audioUrl: Option<ObjectUrl>, error: Option<string>)

  /** Position of a level on the scale, A1 first. */
  function LevelRank(l: CEFRLevel): nat {
    match l
    case A1 => 0
    case A2 => 1
    case B1 => 2
    case B2 => 3
    case C1 => 4
    case C2 => 5
  }

  /** The code a level travels as in a form field. */
  function LevelCode(l: CEFRLevel): string {
    match l
    case A1 => "A1"
    case A2 => "A2"
    case B1 => "B1"
    case B2 => "B2"
    case C1 => "C1"
    case C2 => "C2"
  }

  /** What a level code read back from a form field denotes, if anything. */
  function ParseLevel(s: string): (r: Option<CEFRLevel>)
    ensures r.Some? ==> LevelCode(r.value) == s
  {
    if s == "A1" then Some(A1)
    else if s == "A2" then Some(A2)
    else if s == "B1" then Some(B1)
    else if s == "B2" then Some(B2)
    else if s == "C1" then Some(C1)
    else if s == "C2" then Some(C2)
    else None
  }

  /** Every level's code reads back as that level, and only level codes read back. */
  lemma LevelCodeRoundTrip(l: CEFRLevel, s: string)
    ensures ParseLevel(LevelCode(l)) == Some(l)
    ensures ParseLevel(s).Some? <==> exists k: CEFRLevel :: LevelCode(k) == s
  {
    if exists k: CEFRLevel :: LevelCode(k) == s {
      var k: CEFRLevel :| LevelCode(k) == s;
      assert ParseLevel(LevelCode(k)) == Some(k);
    }
  }

  const LEVELS: seq<LevelInfo> := [
    LevelInfo(A1, "Principiante", "Frases básicas y vocabulario simple",
              "text-emerald-400", "bg-emerald-500/20 border-emerald-500/30"),
    LevelInfo(A2, "Elemental", "Comunicación en situaciones cotidianas",
              "text-teal-400", "bg-teal-500/20 border-teal-500/30"),
    LevelInfo(B1, "Intermedio", "Expresar opiniones y experiencias",
              "text-sky-400", "bg-sky-500/20 border-sky-500/30"),
    LevelInfo(B2, "Intermedio Alto", "Conversaciones complejas con fluidez",
              "text-violet-400", "bg-violet-500/20 border-violet-500/30"),
    LevelInfo(C1, "Avanzado", "Expresión espontánea y flexible",
              "text-fuchsia-400", "bg-fuchsia-500/20 border-fuchsia-500/30"),
    LevelInfo(C2, "Maestría", "Precisión y fluidez nativa",
              "text-rose-400", "bg-rose-500/20 border-rose-500/30")
  ]

  /** The level table has six rows in scale order, so every level is on exactly one row. */
  lemma LevelsTableShape()
    ensures |LEVELS| == 6
    ensures forall i | 0 <= i < |LEVELS| :: LevelRank(LEVELS[i].level) == i
    ensures forall l: CEFRLevel :: LEVELS[LevelRank(l)].level == l
    ensures forall i, j | 0 <= i < |LEVELS| && 0 <= j < |LEVELS| ::
              LEVELS[i].level == LEVELS[j].level ==> i == j
  {
  }

  /** `levels.find(info => info.level === l)`: the first row for `l`, if any. */
  function FindLevel(levels: seq<LevelInfo>, l: CEFRLevel): (r: Option<LevelInfo>)
    ensures r.None? <==> forall i | 0 <= i < |levels| :: levels[i].level != l
    ensures r.Some? ==> exists i | 0 <= i < |levels| ::
              levels[i] == r.value && r.value.level == l &&
              forall j | 0 <= j < i :: levels[j].level != l
  {
    if |levels| == 0 then None
    else if levels[0].level == l then Some(levels[0])
    else
      var r := FindLevel(levels[1..], l);
      assert r.Some? ==> exists i | 0 <= i < |levels[1..]| ::
        levels[1..][i] == r.value && forall j | 0 <= j < i :: levels[1..][j].level != l;
      assert forall i | 0 <= i < |levels[1..]| :: levels[1..][i] == levels[i + 1];
      r
  }

  /** The lookup returns the first row that has the level. */
  lemma {:induction false} FindLevelAt(levels: seq<LevelInfo>, l: CEFRLevel, i: nat)
    requires i < |levels| && levels[i].level == l
    requires forall j | 0 <= j < i :: levels[j].level != l
    ensures FindLevel(levels, l) == Some(levels[i])
  {
    if i > 0 {
      assert levels[0].level != l;
      assert levels[1..][i - 1] == levels[i];
      FindLevelAt(levels[1..], l, i - 1);
    }
  }

  /** A lookup of any level in the table finds that level's own row. */
  lemma LookupAlwaysFinds(l: CEFRLevel)
    ensures FindLevel(LEVELS, l) == Some(LEVELS[LevelRank(l)])
  {
    LevelsTableShape();
    FindLevelAt(LEVELS, l, LevelRank(l));
  }
}
