/** The records exchanged between the services (app/models.py), with the
    recognizer's JSON payload reduced to the keys the pipeline reads. */
module Models {
  import opened Wrappers

  /** Textual form of a UUID: hex digits and hyphens, so never a path separator. */
  predicate IsUuidText(s: string) {
    forall i :: 0 <= i < |s| ==> s[i] == '-' || ('0' <= s[i] <= '9') || ('a' <= s[i] <= 'f')
  }
  type Uuid = s: string | IsUuidText(s) witness ""

  /** A point in time (`datetime.now()`), abstract. */
  type Timestamp = int

  /** A JSON object of string values, such as an error entry from the feedback model. */
  type Dict = map<string, string>

  /** `d.get(key, default)` */
  function Get(d: Dict, key: string, default: string): string {
    if key in d then d[key] else default
  }

  // ---- The pronunciation recognizer's JSON result (only the keys read) ----

  /** `Word["PronunciationAssessment"]`; a key that is absent is `None`. */
  datatype WordAssessment = WordAssessment(accuracyScore: Option<real>, errorType: Option<string>)

  /** One entry of `NBest[0]["Words"]`. */
  datatype WordData = WordData(word: Option<string>, pronunciationAssessment: Option<WordAssessment>)

  /** One entry of `NBest`. */
  datatype NBestEntry = NBestEntry(words: Option<seq<WordData>>)

  /** The parsed `SpeechServiceResponse_JsonResult`. */
  datatype RecognitionJson = RecognitionJson(nBest: Option<seq<NBestEntry>>)

  /** `azure_raw_data`: the recognizer's payload, or `{"error": message}`. */
  datatype RawData = Payload(json: RecognitionJson) | ErrorMarker(error: string)

  // ---- Records ----

  datatype WordError = WordError(
    word: string,
    phoneme: Option<string>,
    errorType: string,
    accuracyScore: Option<real>,
    expectedPhoneme: Option<string>,
    actualPhoneme: Option<string>)

  datatype AzurePronunciationResult = AzurePronunciationResult(
    sentenceId: Uuid,
    sentenceNumber: int,
    text: string,
    recognizedText: string,
    pronunciationScore: real,
    accuracyScore: real,
    fluencyScore: real,
    completenessScore: real,
    prosodyScore: Option<real>,
    words: seq<WordData>,
    errors: seq<WordError>,
    azureRawData: RawData)

  /** Category -> remarks, as in `strengths` and `improvements`. */
  type Remarks = map<string, seq<string>>

  datatype GeminiFeedbackResult = GeminiFeedbackResult(
    pronunciationScore: real,
    vocabularyScore: real,
    grammarScore: real,
    fluencyScore: real,
    overallScore: real,
    overallComment: string,
    strengths: Remarks,
    improvements: Remarks,
    vocabularyErrors: seq<Dict>,
    grammarErrors: seq<Dict>)

  datatype SentenceScore = SentenceScore(
    sentenceId: Uuid,
    sentenceNumber: int,
    text: string,
    accuracyScore: Option<real>,
    fluencyScore: Option<real>,
    completenessScore: Option<real>,
    prosodyScore: Option<real>)

  datatype TurnFeedback = TurnFeedback(
    feedbackId: Uuid,
    turnId: Uuid,
    pronunciationScore: Option<real>,
    vocabularyScore: Option<real>,
    grammarScore: Option<real>,
    fluencyScore: Option<real>,
    overallScore: Option<real>,
    overallComment: Option<string>,
    strengths: Option<Remarks>,
    improvements: Option<Remarks>,
    sentences: seq<SentenceScore>,
    pronunciationErrors: seq<WordError>,
    vocabularyErrors: seq<Dict>,
    grammarErrors: seq<Dict>)

  /** One `{"role": ..., "content": ...}` entry of a conversation history. */
  datatype Message = Message(role: string, content: string)

  datatype StartConversationResponse = StartConversationResponse(
    conversationId: Uuid,
    welcomeMessageText: string,
    welcomeMessageAudioUrl: Option<string>,
    startedAt: Timestamp)

  datatype GenerateTranscriptionResponse = GenerateTranscriptionResponse(
    turnId: Uuid,
    conversationId: Uuid,
    turnNumber: int,
    userText: string,
    userAudioUrl: Option<string>,
    feedback: TurnFeedback,
    feedbackText: string,
    feedbackAudioUrl: Option<string>,
    llmResponseText: string,
    llmResponseAudioUrl: Option<string>,
    createdAt: Timestamp)

  datatype EndConversationResponse = EndConversationResponse(
    conversationId: Uuid,
    totalTurns: int,
    endedAt: Timestamp,
    summaryText: string,
    averageScores: map<string, real>,
    totalErrors: map<string, int>)
}
