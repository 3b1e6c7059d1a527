/** The conversation pipeline (app/service/conversation_service.py): starting
    a conversation, processing one spoken turn, and ending a conversation,
    as sequences of writes to the store and the file system. Every outside
    call (speech recognition, pronunciation assessment, the language model,
    ffmpeg, speech synthesis, number formatting) is a function value in
    `Providers`; fresh ids and timestamps are parameters. */
module Conversation {
  import opened Wrappers
  import opened Text
  import opened Models
  import opened Segmenter
  import opened Assessment
  import opened Feedback
  import opened Paths
  import opened Speech
  import opened Store

  /** The outside calls the pipeline makes. */
  datatype Providers = Providers(
    /** `whisper_service.transcribe`: the recognized text, or the exception it raises. */
    transcribe: string -> Result<string, string>,
    /** ffmpeg run from an input path to an output path. */
    ffmpeg: (string, string) -> FfmpegOutcome,
    /** The recognizer run on an audio file against a reference text. */
    recognize: (string, string) -> RecognitionOutcome,
    /** The feedback model call, `None` when it raises. */
    feedbackModel: FeedbackPrompt -> Option<string>,
    /** `json.loads` plus validation, `None` when either fails. */
    parseFeedback: string -> Option<GeminiFeedbackResult>,
    /** The chat model call, `None` when it raises. */
    chatModel: string -> Option<string>,
    /** Speech synthesis of a text into a file. */
    synthesize: (string, string) -> SynthesisOutcome,
    /** `f"{x:.0f}"` */
    formatWhole: real -> string,
    /** `f"{x:.1f}"` */
    formatTenths: real -> string)

  /** The fresh values one turn draws: `uuid4()` for the turn, the feedback
      and each sentence (by index). */
  datatype TurnIds = TurnIds(turnId: Uuid, feedbackId: Uuid, sentenceIdOf: nat -> Uuid)

  // ---- File and URL naming ----

  const AudioBaseUrl := "http://127.0.0.1:8000/audio/"

  function AudioUrl(filename: string): string {
    AudioBaseUrl + filename
  }

  function WelcomeFileName(conversationId: Uuid): string {
    conversationId + "_welcome.wav"
  }

  function FeedbackFileName(turnId: Uuid): string {
    turnId + "_feedback.wav"
  }

  function ResponseFileName(turnId: Uuid): string {
    turnId + "_response.wav"
  }

  /** `audio_storage / filename` */
  function StoragePath(storage: string, filename: string): string {
    storage + "/" + filename
  }

  /** A file named after an id: the id holds no `/`, so neither does the name. */
  lemma IdFileName(id: Uuid, tail: string)
    requires Excludes(tail, '/')
    ensures Excludes(id + tail, '/')
  {
    assert Excludes(id, '/');
    AppendExcludes(id, tail, '/');
  }

  /** A ".wav" file named after an id, requested in the audio directory, is
      written by the synthesizer at exactly that path, whatever the outcome,
      and that path's last component is the file name the URL uses. */
  lemma SpokenAtRequestedPath(storage: string, id: Uuid, tail: string, available: bool, text: string,
                              synthesize: (string, string) -> SynthesisOutcome)
    requires |tail| > 4 && Excludes(tail, '/') && EndsWith(tail, ".wav")
    ensures var path := StoragePath(storage, id + tail);
      Name(path) == id + tail && SpeechFile(available, text, path, synthesize).path == path
  {
    var name := id + tail;
    var path := StoragePath(storage, name);
    IdFileName(id, tail);
    DirOfAppend(storage + "/", name);
    assert path == (storage + "/") + name;
    assert name[|name| - 4..] == tail[|tail| - 4..];
    WavRequestKeepsPath(available, text, path, synthesize);
  }

  /** The feedback and reply recordings of a turn are two different files. */
  lemma TurnFilesDistinct(storage: string, turnId: Uuid)
    ensures FeedbackFileName(turnId) != ResponseFileName(turnId)
    ensures StoragePath(storage, FeedbackFileName(turnId)) != StoragePath(storage, ResponseFileName(turnId))
  {
    var k := |storage| + 1 + |turnId| + 1;
    assert StoragePath(storage, FeedbackFileName(turnId))[k] == 'f';
    assert StoragePath(storage, ResponseFileName(turnId))[k] == 'r';
    assert FeedbackFileName(turnId)[|turnId| + 1] == 'f';
  }

  // ---- Per-sentence assessment ----

  /** The results of assessing each sentence against the same audio file,
      in sentence order, numbered from 1. */
  function AssessAll(audioFilePath: string, sentences: seq<string>, sentenceIdOf: nat -> Uuid,
                     recognize: (string, string) -> RecognitionOutcome): (results: seq<AzurePronunciationResult>)
    ensures |results| == |sentences|
    ensures forall i :: 0 <= i < |results| ==>
      results[i].text == sentences[i] && results[i].sentenceNumber == i + 1 && results[i].sentenceId == sentenceIdOf(i)
  {
    var results := seq(|sentences|, i requires 0 <= i < |sentences| =>
      Assessed(recognize(audioFilePath, sentences[i]), sentences[i], sentenceIdOf(i), i + 1));
    assert forall i :: 0 <= i < |results| ==>
      results[i].text == sentences[i] && results[i].sentenceNumber == i + 1 && results[i].sentenceId == sentenceIdOf(i)
    by {
      forall i | 0 <= i < |results|
        ensures results[i].text == sentences[i] && results[i].sentenceNumber == i + 1 && results[i].sentenceId == sentenceIdOf(i)
      {
        var a := Assessed(recognize(audioFilePath, sentences[i]), sentences[i], sentenceIdOf(i), i + 1);
        assert results[i] == a;
      }
    }
    results
  }

  /** The result for sentence `i` is that sentence's own assessment. */
  lemma AssessAllAt(audioFilePath: string, sentences: seq<string>, sentenceIdOf: nat -> Uuid,
                    recognize: (string, string) -> RecognitionOutcome, i: nat)
    requires i < |sentences|
    ensures AssessAll(audioFilePath, sentences, sentenceIdOf, recognize)[i]
      == Assessed(recognize(audioFilePath, sentences[i]), sentences[i], sentenceIdOf(i), i + 1)
  {
  }

  /** `_parallel_azure_assessment`: one assessment per sentence; the results
      are gathered in the order the tasks were created. */
  method ParallelAzureAssessment(audioFilePath: string, sentences: seq<string>, sentenceIdOf: nat -> Uuid,
                                 recognize: (string, string) -> RecognitionOutcome)
    returns (results: seq<AzurePronunciationResult>)
    ensures |results| == |sentences|
    ensures forall i :: 0 <= i < |sentences| ==>
      results[i] == Assessed(recognize(audioFilePath, sentences[i]), sentences[i], sentenceIdOf(i), i + 1)
  {
    results := [];
    for idx := 0 to |sentences|
      invariant |results| == idx
      invariant forall i :: 0 <= i < idx ==>
        results[i] == Assessed(recognize(audioFilePath, sentences[i]), sentences[i], sentenceIdOf(i), i + 1)
    {
      var r := AssessPronunciation(audioFilePath, sentences[idx], sentenceIdOf(idx), idx + 1, recognize);
      ghost var prev := results;
      results := results + [r];
      assert forall i :: 0 <= i < idx ==> results[i] == prev[i];
    }
  }

  // ---- Conversation history ----

  /** The messages one turn row contributes: the user's text, then the
      model's reply when it is a non-empty string. */
  function MessagesOf(row: TurnRow): (ms: seq<Message>)
    ensures 1 <= |ms| <= 2 && ms[0] == Message("user", row.userText)
    ensures |ms| == 2 <==> Truthy(row.llmResponse)
    ensures |ms| == 2 ==> ms[1] == Message("assistant", row.llmResponse.value) && ms[1].role != "user"
  {
    [Message("user", row.userText)] + if Truthy(row.llmResponse) then [Message("assistant", row.llmResponse.value)] else []
  }

  /** The history built from the rows, in row order. */
  function HistoryOf(rows: seq<TurnRow>): seq<Message> {
    if rows == [] then [] else HistoryOf(rows[..|rows| - 1]) + MessagesOf(rows[|rows| - 1])
  }

  /** The number of rows carrying a non-empty reply. */
  function Answered(rows: seq<TurnRow>): nat {
    if rows == [] then 0 else Answered(rows[..|rows| - 1]) + if Truthy(rows[|rows| - 1].llmResponse) then 1 else 0
  }

  /** The contents of the user messages, in order. */
  function UserContents(history: seq<Message>): seq<string> {
    if history == [] then []
    else
      var last := history[|history| - 1];
      UserContents(history[..|history| - 1]) + if last.role == "user" then [last.content] else []
  }

  lemma {:induction false} UserContentsAppend(a: seq<Message>, b: seq<Message>)
    ensures UserContents(a + b) == UserContents(a) + UserContents(b)
    decreases |b|
  {
    if b == [] {
      assert a + b == a;
    } else {
      var b' := b[..|b| - 1];
      UserContentsAppend(a, b');
      assert (a + b)[..|a + b| - 1] == a + b';
    }
  }

  /** The history holds one message per row plus one per answered row, and
      its user messages are the rows' texts, one per row, in row order. */
  lemma {:induction false} HistoryShape(rows: seq<TurnRow>)
    ensures |HistoryOf(rows)| == |rows| + Answered(rows)
    ensures UserContents(HistoryOf(rows)) == seq(|rows|, i requires 0 <= i < |rows| => rows[i].userText)
  {
    if rows != [] {
      var init := rows[..|rows| - 1];
      var last := rows[|rows| - 1];
      HistoryShape(init);
      assert HistoryOf(rows) == HistoryOf(init) + MessagesOf(last);
      UserContentsAppend(HistoryOf(init), MessagesOf(last));
      UserContentsOfRow(last);
      assert seq(|rows|, i requires 0 <= i < |rows| => rows[i].userText)
        == seq(|init|, i requires 0 <= i < |init| => init[i].userText) + [last.userText];
    }
  }

  /** A row's messages hold one user message: its text. */
  lemma UserContentsOfRow(row: TurnRow)
    ensures UserContents(MessagesOf(row)) == [row.userText]
  {
    var ms := MessagesOf(row);
    assert UserContents([ms[0]]) == [row.userText];
    if |ms| == 2 {
      assert ms[..1] == [ms[0]];
    } else {
      assert ms == [ms[0]];
    }
  }

  /** `_get_conversation_history`'s loop: a user message per row, followed
      by an assistant message when the row's reply is non-empty. */
  method BuildHistory(rows: seq<TurnRow>) returns (history: seq<Message>)
    ensures history == HistoryOf(rows)
  {
    history := [];
    for i := 0 to |rows|
      invariant history == HistoryOf(rows[..i])
    {
      var row := rows[i];
      assert rows[..i + 1][..i] == rows[..i];
      history := history + [Message("user", row.userText)];
      if row.llmResponse.Some? && row.llmResponse.value != "" {
        history := history + [Message("assistant", row.llmResponse.value)];
      }
    }
    assert rows[..|rows|] == rows;
  }

  // ---- Feedback text ----

  /** The spoken summary of a feedback record: overall, pronunciation,
      grammar and vocabulary scores, then the comment. */
  function FeedbackTextOf(f: GeminiFeedbackResult, formatWhole: real -> string): (t: string)
    ensures StartsWith(t, "Overall score: ")
    ensures EndsWith(t, f.overallComment)
  {
    var head := "Overall score: " + formatWhole(f.overallScore) + " out of 100. "
      + "Pronunciation: " + formatWhole(f.pronunciationScore) + ". "
      + "Grammar: " + formatWhole(f.grammarScore) + ". "
      + "Vocabulary: " + formatWhole(f.vocabularyScore) + ". ";
    assert (head + f.overallComment)[..15] == head[..15];
    assert (head + f.overallComment)[|head|..] == f.overallComment;
    head + f.overallComment
  }

  /** The fluency score never reaches the spoken text. */
  lemma FeedbackTextIgnoresFluency(f: GeminiFeedbackResult, fluency: real, formatWhole: real -> string)
    ensures FeedbackTextOf(f.(fluencyScore := fluency), formatWhole) == FeedbackTextOf(f, formatWhole)
  {
  }

  /** `_generate_feedback_text`, built by successive appends. */
  method GenerateFeedbackText(f: GeminiFeedbackResult, formatWhole: real -> string) returns (text: string)
    ensures text == FeedbackTextOf(f, formatWhole)
  {
    text := "Overall score: " + formatWhole(f.overallScore) + " out of 100. ";
    text := text + "Pronunciation: " + formatWhole(f.pronunciationScore) + ". ";
    text := text + "Grammar: " + formatWhole(f.grammarScore) + ". ";
    text := text + "Vocabulary: " + formatWhole(f.vocabularyScore) + ". ";
    text := text + f.overallComment;
  }

  // ---- Ending a conversation ----

  /** The aggregate row of the statistics query: `COUNT(*)` and the `AVG`s,
      which are NULL when no feedback row joins. */
  datatype TurnStats = TurnStats(
    totalTurns: nat, avgPronunciation: Option<real>, avgVocabulary: Option<real>,
    avgGrammar: Option<real>, avgOverall: Option<real>)

  /** The three error counts of the conversation. */
  datatype ErrorCounts = ErrorCounts(pronunciation: int, vocabulary: int, grammar: int)

  const SummaryLead := "Great conversation! You completed "
  const SummaryTail := ". Keep practicing!"

  /** The summary as the source builds it: formatting a NULL average raises. */
  function SummaryTextAsWritten(stats: TurnStats, formatTenths: real -> string): (r: Result<string, string>)
    ensures r.Failure? <==> stats.avgOverall.None?
  {
    match stats.avgOverall
    case None => Failure("unsupported format string passed to NoneType.__format__")
    case Some(avg) =>
      Success(SummaryLead + NatToString(stats.totalTurns) + " turns. "
        + "Your average overall score was " + formatTenths(avg) + SummaryTail)
  }

  /** A conversation ended before any turn has no feedback rows, so its
      average is NULL and the summary as written fails. */
  lemma EndingWithoutTurnsFails(formatTenths: real -> string)
    ensures SummaryTextAsWritten(TurnStats(0, None, None, None, None), formatTenths).Failure?
  {
  }

  /** The summary with a missing average read as 0, as the average scores
      already read it. */
  function SummaryText(stats: TurnStats, formatTenths: real -> string): (t: string)
    ensures StartsWith(t, SummaryLead) && EndsWith(t, SummaryTail)
    ensures SummaryTextAsWritten(stats, formatTenths).Success? ==> t == SummaryTextAsWritten(stats, formatTenths).value
  {
    var head := SummaryLead + NatToString(stats.totalTurns) + " turns. "
      + "Your average overall score was " + formatTenths(stats.avgOverall.GetOr(0.0));
    assert (head + SummaryTail)[..|SummaryLead|] == head[..|SummaryLead|];
    assert (head + SummaryTail)[|head|..] == SummaryTail;
    head + SummaryTail
  }

  /** The average scores: each average, 0 when NULL. */
  function AverageScores(stats: TurnStats): (m: map<string, real>)
    ensures m.Keys == {"pronunciation", "vocabulary", "grammar", "overall"}
    ensures stats.avgPronunciation.None? ==> m["pronunciation"] == 0.0
    ensures stats.avgPronunciation.Some? ==> m["pronunciation"] == stats.avgPronunciation.value
    ensures stats.avgVocabulary.None? ==> m["vocabulary"] == 0.0
    ensures stats.avgVocabulary.Some? ==> m["vocabulary"] == stats.avgVocabulary.value
    ensures stats.avgGrammar.None? ==> m["grammar"] == 0.0
    ensures stats.avgGrammar.Some? ==> m["grammar"] == stats.avgGrammar.value
    ensures stats.avgOverall.None? ==> m["overall"] == 0.0
    ensures stats.avgOverall.Some? ==> m["overall"] == stats.avgOverall.value
  {
    map["pronunciation" := stats.avgPronunciation.GetOr(0.0), "vocabulary" := stats.avgVocabulary.GetOr(0.0),
        "grammar" := stats.avgGrammar.GetOr(0.0), "overall" := stats.avgOverall.GetOr(0.0)]
  }

  function TotalErrors(errors: ErrorCounts): map<string, int> {
    map["pronunciation" := errors.pronunciation, "vocabulary" := errors.vocabulary, "grammar" := errors.grammar]
  }

  // ---- One turn, as values ----

  /** The turn row as first inserted, before its reply is known. */
  function NewTurn(ids: TurnIds, conversationId: Uuid, turnNumber: int, audioFilePath: string,
                   userText: string, createdAt: Timestamp): TurnRow {
    TurnRow(ids.turnId, conversationId, turnNumber, audioFilePath, userText, None, createdAt)
  }

  /** The reply to a turn, given the turns as they stand when the history is read. */
  function TurnReply(userText: string, turns: seq<TurnRow>, conversationId: Uuid, p: Providers): string {
    ConversationResponse(userText, Some(HistoryOf(HistoryRows(turns, conversationId))), p.chatModel)
  }

  function SentenceScoreOf(r: AzurePronunciationResult): SentenceScore {
    SentenceScore(r.sentenceId, r.sentenceNumber, r.text, Some(r.accuracyScore), Some(r.fluencyScore),
      Some(r.completenessScore), r.prosodyScore)
  }

  /** The feedback part of the response: the feedback record's scores and
      remarks, a score per sentence, and every word error in sentence order. */
  function TurnFeedbackOf(ids: TurnIds, g: GeminiFeedbackResult, results: seq<AzurePronunciationResult>): (f: TurnFeedback)
    ensures f.feedbackId == ids.feedbackId && f.turnId == ids.turnId
    ensures f.pronunciationScore == Some(g.pronunciationScore) && f.vocabularyScore == Some(g.vocabularyScore)
      && f.grammarScore == Some(g.grammarScore) && f.fluencyScore == Some(g.fluencyScore)
      && f.overallScore == Some(g.overallScore) && f.overallComment == Some(g.overallComment)
    ensures f.strengths == Some(g.strengths) && f.improvements == Some(g.improvements)
    ensures |f.sentences| == |results|
    ensures forall i :: 0 <= i < |results| ==>
      && f.sentences[i].sentenceId == results[i].sentenceId
      && f.sentences[i].sentenceNumber == results[i].sentenceNumber
      && f.sentences[i].text == results[i].text
      && f.sentences[i].accuracyScore == Some(results[i].accuracyScore)
      && f.sentences[i].fluencyScore == Some(results[i].fluencyScore)
      && f.sentences[i].completenessScore == Some(results[i].completenessScore)
      && f.sentences[i].prosodyScore == results[i].prosodyScore
    ensures f.pronunciationErrors == AllErrors(results)
    ensures f.vocabularyErrors == g.vocabularyErrors && f.grammarErrors == g.grammarErrors
  {
    TurnFeedback(ids.feedbackId, ids.turnId, Some(g.pronunciationScore), Some(g.vocabularyScore),
      Some(g.grammarScore), Some(g.fluencyScore), Some(g.overallScore), Some(g.overallComment),
      Some(g.strengths), Some(g.improvements),
      seq(|results|, i requires 0 <= i < |results| => SentenceScoreOf(results[i])),
      AllErrors(results), g.vocabularyErrors, g.grammarErrors)
  }

  /** The response of a processed turn. */
  function TranscriptionResponse(conversationId: Uuid, turnNumber: int, audioFilePath: string, ids: TurnIds,
                                 userText: string, results: seq<AzurePronunciationResult>, g: GeminiFeedbackResult,
                                 reply: string, createdAt: Timestamp, p: Providers): GenerateTranscriptionResponse {
    GenerateTranscriptionResponse(ids.turnId, conversationId, turnNumber, userText, Some(audioFilePath),
      TurnFeedbackOf(ids, g, results), FeedbackTextOf(g, p.formatWhole), Some(AudioUrl(FeedbackFileName(ids.turnId))),
      reply, Some(AudioUrl(ResponseFileName(ids.turnId))), createdAt)
  }

  /** The response lists exactly the word errors stored for the turn, one
      for one and in the same order. */
  lemma ResponseErrorsAreStoredErrors(ids: TurnIds, g: GeminiFeedbackResult, results: seq<AzurePronunciationResult>,
                                      userId: Option<Uuid>, createdAt: Timestamp)
    ensures var rows := ErrorRows(results, ids.turnId, userId, createdAt);
      |rows| == |TurnFeedbackOf(ids, g, results).pronunciationErrors|
      && forall k :: 0 <= k < |rows| ==> rows[k].error == TurnFeedbackOf(ids, g, results).pronunciationErrors[k]
  {
    ErrorRowsFollowAllErrors(results, ids.turnId, userId, createdAt);
  }

  /** The history of rows read one after the other is the history of the
      first run followed by that of the second. */
  lemma {:induction false} HistoryOfAppend(a: seq<TurnRow>, b: seq<TurnRow>)
    ensures HistoryOf(a + b) == HistoryOf(a) + HistoryOf(b)
    decreases |b|
  {
    if b == [] {
      assert a + b == a;
    } else {
      var b' := b[..|b| - 1];
      HistoryOfAppend(a, b');
      assert (a + b)[..|a + b| - 1] == a + b';
    }
  }

  /** A row contributes its own messages, between those of the rows before
      and after it. */
  lemma HistoryOfAround(pre: seq<TurnRow>, row: TurnRow, post: seq<TurnRow>)
    ensures HistoryOf(pre + [row] + post) == HistoryOf(pre) + MessagesOf(row) + HistoryOf(post)
  {
    HistoryOfAppend(pre + [row], post);
    assert (pre + [row])[..|pre|] == pre;
  }

  /** The turn being processed is in its own history without a reply. The
      turn row is inserted before the history is read, so while the
      conversation has fewer than ten other turns, the row is among the rows
      read. Its text shows there as a user message, and no assistant message
      follows it. (With ten lower-numbered turns it falls outside `LIMIT 10`.) */
  lemma CurrentTurnUnanswered(turns0: seq<TurnRow>, ids: TurnIds, conversationId: Uuid, turnNumber: int,
                              audioFilePath: string, userText: string, createdAt: Timestamp)
    requires CountTurns(turns0, conversationId) < HistoryLimit
    ensures var turn := NewTurn(ids, conversationId, turnNumber, audioFilePath, userText, createdAt);
      var rows := HistoryRows(turns0 + [turn], conversationId);
      exists pre, post :: rows == pre + [turn] + post
        && HistoryOf(rows) == HistoryOf(pre) + [Message("user", userText)] + HistoryOf(post)
  {
    var turn := NewTurn(ids, conversationId, turnNumber, audioFilePath, userText, createdAt);
    var turns := turns0 + [turn];
    assert turns[..|turns| - 1] == turns0;
    var all := TurnsOf(turns, conversationId);
    assert all == TurnsOf(turns0, conversationId) + [turn];
    var rows := HistoryRows(turns, conversationId);
    assert rows == SortByTurnNumber(all);
    assert turn in multiset(rows) by { assert turn in multiset(all); }
    var i :| 0 <= i < |rows| && rows[i] == turn;
    var pre, post := SplitAround(rows, i);
    HistoryOfAround(pre, turn, post);
    assert MessagesOf(turn) == [Message("user", userText)];
  }

  // ---- Store invariants across a turn ----

  /** A turn appended, its reply set and its conversation counted keep every
      conversation's count equal to its number of turns. */
  lemma ValidAfterTurn(db: Db, oldConversations: seq<ConversationRow>, oldTurns: seq<TurnRow>, row: TurnRow, reply: string)
    requires forall i, j :: 0 <= i < j < |oldConversations| ==> oldConversations[i].conversationId != oldConversations[j].conversationId
    requires forall i :: 0 <= i < |oldConversations| ==>
      oldConversations[i].totalTurns == CountTurns(oldTurns, oldConversations[i].conversationId)
    requires forall i :: 0 <= i < |oldTurns| ==> oldTurns[i].turnId != row.turnId
    requires db.conversations == WithTurnCounted(oldConversations, row.conversationId)
    requires db.turns == WithLlmResponse(oldTurns + [row], row.turnId, reply)
    ensures db.Valid()
    ensures db.turns == oldTurns + [row.(llmResponse := Some(reply))]
  {
    LlmResponseOnNewTurn(oldTurns, row, reply);
    forall i | 0 <= i < |db.conversations|
      ensures db.conversations[i].totalTurns == CountTurns(db.turns, db.conversations[i].conversationId)
    {
      var c := oldConversations[i].conversationId;
      LlmResponseKeepsCounts(oldTurns + [row], row.turnId, reply, c);
      CountAppend(oldTurns, row, c);
    }
  }

  /** The service's state as a value: the tables and the files. */
  datatype ServiceState = ServiceState(conversations: seq<ConversationRow>, turns: seq<TurnRow>, rows: Rows,
    files: map<string, seq<Byte>>)

  /** The tables after a turn's assessments and feedback are recorded:
      each table of `before` extended by the turn's rows, and by nothing else. */
  function RowsWithTurn(before: Rows, userId: Option<Uuid>, turn: TurnRow, feedbackId: Uuid,
                        results: seq<AzurePronunciationResult>, g: GeminiFeedbackResult): Rows
  {
    Rows(
      before.sentences + SentenceRows(results, turn.turnId, turn.createdAt),
      before.pronunciationErrors + ErrorRows(results, turn.turnId, userId, turn.createdAt),
      before.feedback + [FeedbackRowOf(feedbackId, turn.turnId, g, turn.createdAt)],
      before.vocabularyErrors + VocabularyRows(g.vocabularyErrors, turn.turnId, userId, turn.userText, turn.createdAt),
      before.grammarErrors + GrammarRows(g.grammarErrors, turn.turnId, userId, turn.createdAt))
  }

  /** The turn row added to `turns0` with its reply and counted on its
      conversation; the tables agree again. */
  predicate TurnAnswered(conversations0: seq<ConversationRow>, turns0: seq<TurnRow>,
                         conversations: seq<ConversationRow>, turns: seq<TurnRow>, turn: TurnRow, reply: string)
  {
    && Consistent(conversations, turns)
    && turns == turns0 + [turn.(llmResponse := Some(reply))]
    && conversations == WithTurnCounted(conversations0, turn.conversationId)
  }

  /** Steps 2 and 3 of `process_turn`: the transcript split into
      sentences, each assessed against the converted audio. */
  method AssessTurn(converted: string, userText: string, sentenceIdOf: nat -> Uuid,
                    recognize: (string, string) -> RecognitionOutcome)
    returns (results: seq<AzurePronunciationResult>)
    ensures results == AssessAll(converted, SplitIntoSentences(userText), sentenceIdOf, recognize)
  {
    var sentences := SplitIntoSentences(userText);
    results := ParallelAzureAssessment(converted, sentences, sentenceIdOf, recognize);
    var expected := AssessAll(converted, sentences, sentenceIdOf, recognize);
    forall i | 0 <= i < |results|
      ensures results[i] == expected[i]
    {
      AssessAllAt(converted, sentences, sentenceIdOf, recognize, i);
    }
  }

  /** The two recordings of a turn are ".wav" names without a separator. */
  lemma TurnTailIsWav(tail: string)
    requires tail == "_feedback.wav" || tail == "_response.wav"
    ensures |tail| > 4 && Excludes(tail, '/') && EndsWith(tail, ".wav")
  {
  }

  // ---- The service ----

  class ConversationService {
    /** The audio directory, as a path without a trailing separator. */
    const audioStorage: string
    const store: Db
    const fs: FileStore
    const tts: SpeechSynthesizer

    constructor(audioStorage: string, store: Db, fs: FileStore, tts: SpeechSynthesizer)
      ensures this.audioStorage == audioStorage && this.store == store && this.fs == fs && this.tts == tts
    {
      this.audioStorage := audioStorage;
      this.store := store;
      this.fs := fs;
      this.tts := tts;
    }

    /** `start_conversation`: records the conversation as active with no
        turns, speaks the welcome message into `<id>_welcome.wav` and
        returns that file's URL. */
    method StartConversation(userId: Uuid, topic: Option<string>, conversationId: Uuid, startedAt: Timestamp, p: Providers)
      returns (r: StartConversationResponse)
      requires store.Valid()
      requires forall i :: 0 <= i < |store.conversations| ==> store.conversations[i].conversationId != conversationId
      requires forall i :: 0 <= i < |store.turns| ==> store.turns[i].conversationId != conversationId
      modifies store`conversations, fs
      ensures store.conversations == old(store.conversations) + [ConversationRow(conversationId, userId, topic, startedAt, "active", None, 0)]
      ensures store.Valid() && CountTurns(store.turns, conversationId) == 0
      ensures var path := StoragePath(audioStorage, WelcomeFileName(conversationId));
        fs.files == old(fs.files)[path := SpeechFile(tts.available, WelcomeMessage(topic, p.chatModel), path, p.synthesize).bytes]
      ensures r == StartConversationResponse(conversationId, WelcomeMessage(topic, p.chatModel),
        Some(AudioUrl(WelcomeFileName(conversationId))), startedAt)
    {
      store.InsertConversation(ConversationRow(conversationId, userId, topic, startedAt, "active", None, 0));
      assert forall i :: 0 <= i < |store.turns| ==> store.turns[i].conversationId != conversationId;
      TurnsOfMembershipEmpty(store.turns, conversationId);
      var welcomeText := WelcomeMessage(topic, p.chatModel);
      var filename := WelcomeFileName(conversationId);
      var path := StoragePath(audioStorage, filename);
      SpokenAtRequestedPath(audioStorage, conversationId, "_welcome.wav", tts.available, welcomeText, p.synthesize);
      var written := tts.TextToSpeech(fs, welcomeText, path, p.synthesize);
      r := StartConversationResponse(conversationId, welcomeText, Some(AudioUrl(filename)), startedAt);
    }

    /** The sentence rows, one per result, in order. */
    method InsertSentences(results: seq<AzurePronunciationResult>, turnId: Uuid, createdAt: Timestamp)
      modifies store`sentences
      ensures store.sentences == old(store.sentences) + SentenceRows(results, turnId, createdAt)
    {
      for i := 0 to |results|
        invariant store.sentences == old(store.sentences) + SentenceRows(results[..i], turnId, createdAt)
      {
        store.InsertSentence(SentenceRowOf(results[i], turnId, createdAt));
        assert SentenceRows(results[..i + 1], turnId, createdAt)
          == SentenceRows(results[..i], turnId, createdAt) + [SentenceRowOf(results[i], turnId, createdAt)];
      }
      assert results[..|results|] == results;
    }

    /** The pronunciation error rows: for each result, one per word error. */
    method InsertPronunciationErrors(results: seq<AzurePronunciationResult>, turnId: Uuid, userId: Option<Uuid>, createdAt: Timestamp)
      modifies store`pronunciationErrors
      ensures store.pronunciationErrors == old(store.pronunciationErrors) + ErrorRows(results, turnId, userId, createdAt)
    {
      for i := 0 to |results|
        invariant store.pronunciationErrors == old(store.pronunciationErrors) + ErrorRows(results[..i], turnId, userId, createdAt)
      {
        InsertErrorsOf(results[i], turnId, userId, createdAt);
        ErrorRowsSnoc(results, i, turnId, userId, createdAt);
      }
      assert results[..|results|] == results;
    }

    /** The inner loop over one result's word errors, one row each. */
    method InsertErrorsOf(r: AzurePronunciationResult, turnId: Uuid, userId: Option<Uuid>, createdAt: Timestamp)
      modifies store`pronunciationErrors
      ensures store.pronunciationErrors == old(store.pronunciationErrors) + ErrorRowsOf(r, turnId, userId, createdAt)
    {
      var rows := ErrorRowsOf(r, turnId, userId, createdAt);
      for j := 0 to |r.errors|
        invariant store.pronunciationErrors == old(store.pronunciationErrors) + rows[..j]
      {
        store.InsertPronunciationError(PronunciationErrorRow(r.sentenceId, turnId, userId, r.errors[j], createdAt));
        assert rows[..j + 1] == rows[..j] + [rows[j]];
      }
      assert rows[..|r.errors|] == rows;
    }

    /** The vocabulary error rows, one per entry, in order. */
    method InsertVocabularyErrors(errors: seq<Dict>, turnId: Uuid, userId: Option<Uuid>, userText: string, createdAt: Timestamp)
      modifies store`vocabularyErrors
      ensures store.vocabularyErrors == old(store.vocabularyErrors) + VocabularyRows(errors, turnId, userId, userText, createdAt)
    {
      for i := 0 to |errors|
        invariant store.vocabularyErrors == old(store.vocabularyErrors) + VocabularyRows(errors[..i], turnId, userId, userText, createdAt)
      {
        store.InsertVocabularyError(VocabularyRowOf(turnId, userId, errors[i], userText, createdAt));
        assert VocabularyRows(errors[..i + 1], turnId, userId, userText, createdAt)
          == VocabularyRows(errors[..i], turnId, userId, userText, createdAt) + [VocabularyRowOf(turnId, userId, errors[i], userText, createdAt)];
      }
      assert errors[..|errors|] == errors;
    }

    /** The grammar error rows, one per entry, in order. */
    method InsertGrammarErrors(errors: seq<Dict>, turnId: Uuid, userId: Option<Uuid>, createdAt: Timestamp)
      modifies store`grammarErrors
      ensures store.grammarErrors == old(store.grammarErrors) + GrammarRows(errors, turnId, userId, createdAt)
    {
      for i := 0 to |errors|
        invariant store.grammarErrors == old(store.grammarErrors) + GrammarRows(errors[..i], turnId, userId, createdAt)
      {
        store.InsertGrammarError(GrammarRowOf(turnId, userId, errors[i], createdAt));
        assert GrammarRows(errors[..i + 1], turnId, userId, createdAt)
          == GrammarRows(errors[..i], turnId, userId, createdAt) + [GrammarRowOf(turnId, userId, errors[i], createdAt)];
      }
      assert errors[..|errors|] == errors;
    }

    /** `process_turn`. The audio is converted first; the transcript comes
        from the ORIGINAL file and the assessments from the converted one.
        A failed transcription propagates before any table, or any file
        the model tracks, is written; the converted file ffmpeg has already
        written is not modelled.
        Otherwise the turn row is inserted before the history is read, so
        the turn shows in its own history without a reply; then come its
        sentences, word errors, feedback and feedback errors, the two
        recordings, and finally the reply on the turn row and the
        conversation's turn count. */
    method ProcessTurn(conversationId: Uuid, turnNumber: int, audioFilePath: string, ids: TurnIds,
                       createdAt: Timestamp, p: Providers)
      returns (r: Result<GenerateTranscriptionResponse, string>)
      requires store.Valid()
      requires forall i :: 0 <= i < |store.turns| ==> store.turns[i].turnId != ids.turnId
      modifies store, fs
      ensures p.transcribe(audioFilePath).Failure? ==>
        r == Failure(p.transcribe(audioFilePath).error) && unchanged(store) && unchanged(fs)
      ensures p.transcribe(audioFilePath).Success? ==>
        var turn := NewTurn(ids, conversationId, turnNumber, audioFilePath, p.transcribe(audioFilePath).value, createdAt);
        r.Success? && TurnRecorded(old(State()), State(), turn, ConvertedAudioPath(audioFilePath, p.ffmpeg), ids, p, r.value)
    {
      var converted := ConvertedAudioPath(audioFilePath, p.ffmpeg);
      var transcript := p.transcribe(audioFilePath);
      if transcript.Failure? {
        return Failure(transcript.error);
      }
      var turn := NewTurn(ids, conversationId, turnNumber, audioFilePath, transcript.value, createdAt);
      var response := RecordTranscript(turn, converted, ids, p);
      r := Success(response);
    }

    /** What the store and the audio directory hold. */
    function State(): ServiceState
      reads store, fs
    {
      ServiceState(store.conversations, store.turns, store.RowsNow(), fs.files)
    }

    /** The feedback and the reply spoken into the turn's two files; the
        other files as they were. */
    predicate Spoken(before: map<string, seq<Byte>>, after: map<string, seq<Byte>>, turnId: Uuid,
                     feedbackText: string, reply: string, synthesize: (string, string) -> SynthesisOutcome)
    {
      var available := tts.available;
      var feedbackPath := StoragePath(audioStorage, FeedbackFileName(turnId));
      var replyPath := StoragePath(audioStorage, ResponseFileName(turnId));
      after == before
        [feedbackPath := SpeechFile(available, feedbackText, feedbackPath, synthesize).bytes]
        [replyPath := SpeechFile(available, reply, replyPath, synthesize).bytes]
    }

    /** What a transcribed turn leaves behind: its rows, the turn answered
        and counted, the two recordings, and the response reporting them.
        The user id on the error rows is the conversation's as it stood,
        and the reply is the one generated from the history once the turn
        row was in. */
    predicate TurnRecorded(before: ServiceState, after: ServiceState, turn: TurnRow, converted: string,
                           ids: TurnIds, p: Providers, response: GenerateTranscriptionResponse)
    {
      var results := AssessAll(converted, SplitIntoSentences(turn.userText), ids.sentenceIdOf, p.recognize);
      var g := ComprehensiveFeedback(turn.userText, results, p.feedbackModel, p.parseFeedback);
      var userId := FirstUserId(before.conversations, turn.conversationId);
      var reply := TurnReply(turn.userText, before.turns + [turn], turn.conversationId, p);
      && after.rows == RowsWithTurn(before.rows, userId, turn, ids.feedbackId, results, g)
      && TurnAnswered(before.conversations, before.turns, after.conversations, after.turns, turn, reply)
      && Spoken(before.files, after.files, turn.turnId, FeedbackTextOf(g, p.formatWhole), reply, p.synthesize)
      && response == TranscriptionResponse(turn.conversationId, turn.turnNumber, turn.userAudioUrl, ids, turn.userText,
           results, g, reply, turn.createdAt, p)
    }

    /** Everything `process_turn` does once the transcript is in. */
    method RecordTranscript(turn: TurnRow, converted: string, ids: TurnIds, p: Providers)
      returns (response: GenerateTranscriptionResponse)
      requires store.Valid()
      requires turn.turnId == ids.turnId
      requires forall i :: 0 <= i < |store.turns| ==> store.turns[i].turnId != turn.turnId
      modifies store, fs
      ensures TurnRecorded(old(State()), State(), turn, converted, ids, p, response)
    {
      ghost var conversations0, turns0 := store.conversations, store.turns;
      var results := AssessTurn(converted, turn.userText, ids.sentenceIdOf, p.recognize);
      var userId := RecordAssessments(turn, results);
      var g := GenerateComprehensiveFeedback(turn.userText, results, p.feedbackModel, p.parseFeedback);
      RecordFeedback(g, ids.feedbackId, turn.turnId, userId, turn.userText, turn.createdAt);
      var reply := Respond(turn, g, p, conversations0, turns0);
      response := TranscriptionResponse(turn.conversationId, turn.turnNumber, turn.userAudioUrl, ids, turn.userText,
        results, g, reply, turn.createdAt, p);
    }

    /** The feedback spoken; the history read, this turn included without
        its reply; the reply generated and spoken; then the reply stored on
        the turn row and the turn counted. */
    method Respond(turn: TurnRow, g: GeminiFeedbackResult, p: Providers,
                   ghost conversations0: seq<ConversationRow>, ghost turns0: seq<TurnRow>)
      returns (reply: string)
      requires Consistent(conversations0, turns0)
      requires forall i :: 0 <= i < |turns0| ==> turns0[i].turnId != turn.turnId
      requires store.conversations == conversations0 && store.turns == turns0 + [turn]
      modifies store`turns, store`conversations, fs
      ensures reply == TurnReply(turn.userText, turns0 + [turn], turn.conversationId, p)
      ensures Spoken(old(fs.files), fs.files, turn.turnId, FeedbackTextOf(g, p.formatWhole), reply, p.synthesize)
      ensures TurnAnswered(conversations0, turns0, store.conversations, store.turns, turn, reply)
      ensures store.RowsNow() == old(store.RowsNow())
    {
      var feedbackText := GenerateFeedbackText(g, p.formatWhole);
      SpeakInto(turn.turnId, "_feedback.wav", feedbackText, p.synthesize);
      reply := Reply(turn.userText, turn.conversationId, p);
      SpeakInto(turn.turnId, "_response.wav", reply, p.synthesize);
      CloseTurn(turn, reply, conversations0, turns0);
    }

    /** The history read and the reply generated from it. */
    method Reply(userText: string, conversationId: Uuid, p: Providers) returns (reply: string)
      ensures reply == TurnReply(userText, store.turns, conversationId, p)
      ensures State() == old(State())
    {
      var history := GetConversationHistory(conversationId);
      reply := ConversationResponse(userText, Some(history), p.chatModel);
    }

    /** The turn row, then a sentence row per result, then a word-error row
        per error of each result; the user id is read between the two. */
    method RecordAssessments(turn: TurnRow, results: seq<AzurePronunciationResult>) returns (userId: Option<Uuid>)
      modifies store`turns, store`sentences, store`pronunciationErrors
      ensures userId == old(store.UserIdOf(turn.conversationId))
      ensures store.turns == old(store.turns) + [turn]
      ensures store.sentences == old(store.sentences) + SentenceRows(results, turn.turnId, turn.createdAt)
      ensures store.pronunciationErrors == old(store.pronunciationErrors) + ErrorRows(results, turn.turnId, userId, turn.createdAt)
      ensures store.feedback == old(store.feedback) && store.vocabularyErrors == old(store.vocabularyErrors)
      ensures store.grammarErrors == old(store.grammarErrors)
      ensures store.conversations == old(store.conversations) && fs.files == old(fs.files)
    {
      store.InsertTurn(turn);
      InsertSentences(results, turn.turnId, turn.createdAt);
      userId := store.UserIdOf(turn.conversationId);
      InsertPronunciationErrors(results, turn.turnId, userId, turn.createdAt);
    }

    /** The feedback row, then a row per vocabulary error and per grammar error. */
    method RecordFeedback(g: GeminiFeedbackResult, feedbackId: Uuid, turnId: Uuid, userId: Option<Uuid>,
                          userText: string, createdAt: Timestamp)
      modifies store`feedback, store`vocabularyErrors, store`grammarErrors
      ensures store.feedback == old(store.feedback) + [FeedbackRowOf(feedbackId, turnId, g, createdAt)]
      ensures store.vocabularyErrors == old(store.vocabularyErrors) + VocabularyRows(g.vocabularyErrors, turnId, userId, userText, createdAt)
      ensures store.grammarErrors == old(store.grammarErrors) + GrammarRows(g.grammarErrors, turnId, userId, createdAt)
      ensures store.sentences == old(store.sentences) && store.pronunciationErrors == old(store.pronunciationErrors)
      ensures store.turns == old(store.turns) && store.conversations == old(store.conversations) && fs.files == old(fs.files)
    {
      store.InsertFeedback(FeedbackRowOf(feedbackId, turnId, g, createdAt));
      InsertVocabularyErrors(g.vocabularyErrors, turnId, userId, userText, createdAt);
      InsertGrammarErrors(g.grammarErrors, turnId, userId, createdAt);
    }

    /** Speaks `text` into `<id><tail>` in the audio directory; the file is
        written at that path whatever the synthesizer does. */
    method SpeakInto(id: Uuid, tail: string, text: string, synthesize: (string, string) -> SynthesisOutcome)
      requires tail == "_feedback.wav" || tail == "_response.wav"
      modifies fs
      ensures var path := StoragePath(audioStorage, id + tail);
        fs.files == old(fs.files)[path := SpeechFile(tts.available, text, path, synthesize).bytes]
      ensures store.turns == old(store.turns) && store.conversations == old(store.conversations)
      ensures store.RowsNow() == old(store.RowsNow())
    {
      TurnTailIsWav(tail);
      SpokenAtRequestedPath(audioStorage, id, tail, tts.available, text, synthesize);
      var written := tts.TextToSpeech(fs, text, StoragePath(audioStorage, id + tail), synthesize);
    }

    /** The reply set on the turn row and the conversation's turn counted;
        the store is valid again. */
    method CloseTurn(turn: TurnRow, reply: string, ghost conversations0: seq<ConversationRow>, ghost turns0: seq<TurnRow>)
      requires Consistent(conversations0, turns0)
      requires forall i :: 0 <= i < |turns0| ==> turns0[i].turnId != turn.turnId
      requires store.conversations == conversations0 && store.turns == turns0 + [turn]
      modifies store`turns, store`conversations
      ensures store.turns == turns0 + [turn.(llmResponse := Some(reply))]
      ensures store.conversations == WithTurnCounted(conversations0, turn.conversationId)
      ensures store.Valid()
      ensures store.RowsNow() == old(store.RowsNow()) && fs.files == old(fs.files)
    {
      store.SetLlmResponse(turn.turnId, reply);
      store.CountTurn(turn.conversationId);
      ValidAfterTurn(store, conversations0, turns0, turn, reply);
    }

    /** `end_conversation`: marks the conversation completed and reports the
        statistics, with a missing overall average read as 0 in the summary. */
    method EndConversation(conversationId: Uuid, endedAt: Timestamp, stats: TurnStats, errors: ErrorCounts, p: Providers)
      returns (r: EndConversationResponse)
      requires store.Valid()
      modifies store`conversations
      ensures store.conversations == MarkedCompleted(old(store.conversations), conversationId, endedAt)
      ensures store.Valid()
      ensures r == EndConversationResponse(conversationId, stats.totalTurns, endedAt,
        SummaryText(stats, p.formatTenths), AverageScores(stats), TotalErrors(errors))
    {
      store.Complete(conversationId, endedAt);
      r := EndConversationResponse(conversationId, stats.totalTurns, endedAt,
        SummaryText(stats, p.formatTenths), AverageScores(stats), TotalErrors(errors));
    }

    /** `end_conversation` as the source runs it: the status update is
        committed first, and the summary then raises when the overall
        average is NULL, so no response is returned. Where it succeeds it
        returns what `EndConversation` returns. */
    method EndConversationAsWritten(conversationId: Uuid, endedAt: Timestamp, stats: TurnStats, errors: ErrorCounts,
                                    p: Providers)
      returns (r: Result<EndConversationResponse, string>)
      requires store.Valid()
      modifies store`conversations
      ensures store.conversations == MarkedCompleted(old(store.conversations), conversationId, endedAt)
      ensures store.Valid()
      ensures r.Failure? <==> stats.avgOverall.None?
      ensures r.Success? ==> r.value == EndConversationResponse(conversationId, stats.totalTurns, endedAt,
        SummaryText(stats, p.formatTenths), AverageScores(stats), TotalErrors(errors))
    {
      store.Complete(conversationId, endedAt);
      var summary := SummaryTextAsWritten(stats, p.formatTenths);
      if summary.Failure? {
        return Failure(summary.error);
      }
      r := Success(EndConversationResponse(conversationId, stats.totalTurns, endedAt,
        summary.value, AverageScores(stats), TotalErrors(errors)));
    }

    /** `_get_conversation_history`: the first ten turns by turn number,
        as messages. */
    method GetConversationHistory(conversationId: Uuid) returns (history: seq<Message>)
      ensures history == HistoryOf(HistoryRows(store.turns, conversationId))
      ensures State() == old(State())
    {
      var rows := HistoryRows(store.turns, conversationId);
      history := BuildHistory(rows);
    }
  }

  /** No row of the conversation, no turn counted. */
  lemma TurnsOfMembershipEmpty(turns: seq<TurnRow>, conversationId: Uuid)
    requires forall i :: 0 <= i < |turns| ==> turns[i].conversationId != conversationId
    ensures CountTurns(turns, conversationId) == 0
  {
    var rows := TurnsOf(turns, conversationId);
    if rows != [] {
      TurnsOfMembership(turns, conversationId, rows[0]);
      assert false;
    }
  }
}
