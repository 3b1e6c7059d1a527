/** The tables the conversation pipeline writes (app/service/conversation_service.py),
    as an in-memory store: each table is a sequence of rows in insertion
    order, and each SQL statement the pipeline issues is one method. The
    queries it reads back (the user of a conversation, the history rows)
    are functions of the tables. */
module Store {
  import opened Wrappers
  import opened Models

  // ---- Rows ----

  datatype ConversationRow = ConversationRow(
    conversationId: Uuid, userId: Uuid, topic: Option<string>, startedAt: Timestamp,
    status: string, endedAt: Option<Timestamp>, totalTurns: int)

  datatype TurnRow = TurnRow(
    turnId: Uuid, conversationId: Uuid, turnNumber: int, userAudioUrl: string,
    userText: string, llmResponse: Option<string>, createdAt: Timestamp)

  /** A `sentences` row; the pronunciation score is not a column. */
  datatype SentenceRow = SentenceRow(
    sentenceId: Uuid, turnId: Uuid, sentenceNumber: int, text: string,
    accuracyScore: real, fluencyScore: real, completenessScore: real, prosodyScore: Option<real>,
    azureRawData: RawData, createdAt: Timestamp)

  datatype PronunciationErrorRow = PronunciationErrorRow(
    sentenceId: Uuid, turnId: Uuid, userId: Option<Uuid>, error: WordError, createdAt: Timestamp)

  datatype FeedbackRow = FeedbackRow(
    feedbackId: Uuid, turnId: Uuid,
    pronunciationScore: real, vocabularyScore: real, grammarScore: real, fluencyScore: real, overallScore: real,
    overallComment: string, strengths: Remarks, improvements: Remarks, createdAt: Timestamp)

  datatype VocabularyErrorRow = VocabularyErrorRow(
    turnId: Uuid, userId: Option<Uuid>, errorType: string, incorrectPhrase: string,
    correctPhrase: string, context: string, explanation: string, createdAt: Timestamp)

  datatype GrammarErrorRow = GrammarErrorRow(
    turnId: Uuid, userId: Option<Uuid>, errorType: string, incorrectText: string,
    correctText: string, ruleViolated: string, explanation: string, createdAt: Timestamp)

  // ---- Row builders ----

  /** The `sentences` row for one assessment result. */
  function SentenceRowOf(r: AzurePronunciationResult, turnId: Uuid, createdAt: Timestamp): SentenceRow {
    SentenceRow(r.sentenceId, turnId, r.sentenceNumber, r.text,
      r.accuracyScore, r.fluencyScore, r.completenessScore, r.prosodyScore, r.azureRawData, createdAt)
  }

  function SentenceRows(results: seq<AzurePronunciationResult>, turnId: Uuid, createdAt: Timestamp): seq<SentenceRow> {
    seq(|results|, i requires 0 <= i < |results| => SentenceRowOf(results[i], turnId, createdAt))
  }

  /** Every word error of every result, in sentence order: `sum([r.errors for r in results], [])`. */
  function AllErrors(results: seq<AzurePronunciationResult>): seq<WordError> {
    if results == [] then []
    else AllErrors(results[..|results| - 1]) + results[|results| - 1].errors
  }

  /** The `pronunciation_errors` rows for one result, one per word error. */
  function ErrorRowsOf(r: AzurePronunciationResult, turnId: Uuid, userId: Option<Uuid>, createdAt: Timestamp): seq<PronunciationErrorRow> {
    seq(|r.errors|, j requires 0 <= j < |r.errors| => PronunciationErrorRow(r.sentenceId, turnId, userId, r.errors[j], createdAt))
  }

  /** The `pronunciation_errors` rows for all results: one per error of
      `AllErrors(results)`, in the same order, each with the turn and user. */
  function ErrorRows(results: seq<AzurePronunciationResult>, turnId: Uuid, userId: Option<Uuid>, createdAt: Timestamp): seq<PronunciationErrorRow>
  {
    if results == [] then []
    else ErrorRows(results[..|results| - 1], turnId, userId, createdAt) + ErrorRowsOf(results[|results| - 1], turnId, userId, createdAt)
  }

  lemma {:induction false} ErrorRowsFollowAllErrors(results: seq<AzurePronunciationResult>, turnId: Uuid, userId: Option<Uuid>, createdAt: Timestamp)
    ensures var rows := ErrorRows(results, turnId, userId, createdAt);
      |rows| == |AllErrors(results)|
      && forall k :: 0 <= k < |rows| ==>
        rows[k].error == AllErrors(results)[k] && rows[k].turnId == turnId && rows[k].userId == userId
  {
    if results != [] {
      var init := results[..|results| - 1];
      var last := results[|results| - 1];
      ErrorRowsFollowAllErrors(init, turnId, userId, createdAt);
      var before := ErrorRows(init, turnId, userId, createdAt);
      var rows := ErrorRows(results, turnId, userId, createdAt);
      assert rows == before + ErrorRowsOf(last, turnId, userId, createdAt);
      assert AllErrors(results) == AllErrors(init) + last.errors;
      forall k | |before| <= k < |rows|
        ensures rows[k].error == AllErrors(results)[k] && rows[k].turnId == turnId && rows[k].userId == userId
      {
        assert rows[k] == ErrorRowsOf(last, turnId, userId, createdAt)[k - |before|];
      }
    }
  }

  /** One more result adds its own error rows at the end. */
  lemma ErrorRowsSnoc(results: seq<AzurePronunciationResult>, i: nat, turnId: Uuid, userId: Option<Uuid>, createdAt: Timestamp)
    requires i < |results|
    ensures ErrorRows(results[..i + 1], turnId, userId, createdAt)
      == ErrorRows(results[..i], turnId, userId, createdAt) + ErrorRowsOf(results[i], turnId, userId, createdAt)
  {
    assert results[..i + 1][..i] == results[..i];
  }

  /** Each error row names the sentence of the result the error came from. */
  lemma {:induction false} ErrorRowsNameTheirSentence(results: seq<AzurePronunciationResult>, turnId: Uuid, userId: Option<Uuid>, createdAt: Timestamp, k: nat)
    requires k < |ErrorRows(results, turnId, userId, createdAt)|
    ensures exists i :: (0 <= i < |results| && ErrorRows(results, turnId, userId, createdAt)[k].sentenceId == results[i].sentenceId
                          && ErrorRows(results, turnId, userId, createdAt)[k].error in results[i].errors)
  {
    var init := results[..|results| - 1];
    var last := results[|results| - 1];
    var before := ErrorRows(init, turnId, userId, createdAt);
    if k < |before| {
      ErrorRowsNameTheirSentence(init, turnId, userId, createdAt, k);
      var i :| 0 <= i < |init| && before[k].sentenceId == init[i].sentenceId && before[k].error in init[i].errors;
      assert results[i] == init[i];
    } else {
      assert ErrorRows(results, turnId, userId, createdAt)[k] == ErrorRowsOf(last, turnId, userId, createdAt)[k - |before|];
      assert last.errors[k - |before|] in last.errors;
    }
  }

  /** `AllErrors` of two runs of results, one after the other. */
  lemma {:induction false} AllErrorsAppend(a: seq<AzurePronunciationResult>, b: seq<AzurePronunciationResult>)
    ensures AllErrors(a + b) == AllErrors(a) + AllErrors(b)
    decreases |b|
  {
    if b == [] {
      assert a + b == a;
    } else {
      var b' := b[..|b| - 1];
      var last := b[|b| - 1];
      AllErrorsAppend(a, b');
      assert (a + b)[..|a + b| - 1] == a + b' && (a + b)[|a + b| - 1] == last;
      assert AllErrors(a + b) == AllErrors(a + b') + last.errors;
      assert AllErrors(b) == AllErrors(b') + last.errors;
    }
  }

  /** The `vocabulary_errors` row for one error entry: type "word_choice",
      the user's whole text as context, and "" for any missing key. */
  function VocabularyRowOf(turnId: Uuid, userId: Option<Uuid>, e: Dict, userText: string, createdAt: Timestamp): VocabularyErrorRow {
    VocabularyErrorRow(turnId, userId, "word_choice", Get(e, "incorrect_phrase", ""),
      Get(e, "correct_phrase", ""), userText, Get(e, "explanation", ""), createdAt)
  }

  /** The `grammar_errors` row for one error entry: the rule violated fills
      both the type (default "unknown") and its own column (default ""). */
  function GrammarRowOf(turnId: Uuid, userId: Option<Uuid>, e: Dict, createdAt: Timestamp): (row: GrammarErrorRow)
    ensures row.errorType != row.ruleViolated <==> "rule_violated" !in e
    ensures "rule_violated" !in e ==> row.errorType == "unknown" && row.ruleViolated == ""
  {
    GrammarErrorRow(turnId, userId, Get(e, "rule_violated", "unknown"), Get(e, "incorrect_text", ""),
      Get(e, "correct_text", ""), Get(e, "rule_violated", ""), Get(e, "explanation", ""), createdAt)
  }

  function VocabularyRows(errors: seq<Dict>, turnId: Uuid, userId: Option<Uuid>, userText: string, createdAt: Timestamp): seq<VocabularyErrorRow> {
    seq(|errors|, i requires 0 <= i < |errors| => VocabularyRowOf(turnId, userId, errors[i], userText, createdAt))
  }

  function GrammarRows(errors: seq<Dict>, turnId: Uuid, userId: Option<Uuid>, createdAt: Timestamp): seq<GrammarErrorRow> {
    seq(|errors|, i requires 0 <= i < |errors| => GrammarRowOf(turnId, userId, errors[i], createdAt))
  }

  /** The `turn_feedback` row for a feedback record. */
  function FeedbackRowOf(feedbackId: Uuid, turnId: Uuid, g: GeminiFeedbackResult, createdAt: Timestamp): FeedbackRow {
    FeedbackRow(feedbackId, turnId, g.pronunciationScore, g.vocabularyScore, g.grammarScore, g.fluencyScore,
      g.overallScore, g.overallComment, g.strengths, g.improvements, createdAt)
  }

  /** A missing key reads as "", a present one as its value. */
  lemma VocabularyDefaults(turnId: Uuid, userId: Option<Uuid>, userText: string, createdAt: Timestamp)
    ensures var row := VocabularyRowOf(turnId, userId, map[], userText, createdAt);
      row.errorType == "word_choice" && row.context == userText
      && row.incorrectPhrase == "" && row.correctPhrase == "" && row.explanation == ""
  {
  }

  // ---- The history query ----

  /** The turns of one conversation, in insertion order. */
  function TurnsOf(turns: seq<TurnRow>, conversationId: Uuid): (rows: seq<TurnRow>)
    ensures |rows| <= |turns|
    ensures forall k :: 0 <= k < |rows| ==> rows[k].conversationId == conversationId
  {
    if turns == [] then []
    else
      var init := TurnsOf(turns[..|turns| - 1], conversationId);
      var last := turns[|turns| - 1];
      if last.conversationId == conversationId then init + [last] else init
  }

  /** A row is selected exactly when it belongs to the conversation. */
  lemma {:induction false} TurnsOfMembership(turns: seq<TurnRow>, conversationId: Uuid, t: TurnRow)
    ensures t in TurnsOf(turns, conversationId) <==> t in turns && t.conversationId == conversationId
  {
    if turns != [] {
      var init := turns[..|turns| - 1];
      TurnsOfMembership(init, conversationId, t);
      assert turns == init + [turns[|turns| - 1]];
    }
  }

  /** The number of turns of one conversation. */
  function CountTurns(turns: seq<TurnRow>, conversationId: Uuid): nat {
    |TurnsOf(turns, conversationId)|
  }

  predicate SortedByTurnNumber(rows: seq<TurnRow>) {
    forall i, j :: 0 <= i < j < |rows| ==> rows[i].turnNumber <= rows[j].turnNumber
  }

  /** `x` placed before the first row with a turn number not below its own. */
  function Insert(x: TurnRow, rows: seq<TurnRow>): (r: seq<TurnRow>)
    ensures |r| == |rows| + 1
    ensures multiset(r) == multiset(rows) + multiset{x}
  {
    if rows == [] || x.turnNumber <= rows[0].turnNumber then [x] + rows
    else
      assert rows == [rows[0]] + rows[1..];
      [rows[0]] + Insert(x, rows[1..])
  }

  lemma {:induction false} InsertSorted(x: TurnRow, rows: seq<TurnRow>)
    requires SortedByTurnNumber(rows)
    ensures SortedByTurnNumber(Insert(x, rows))
    ensures Insert(x, rows) != [] && (Insert(x, rows)[0] == x || (rows != [] && Insert(x, rows)[0] == rows[0]))
  {
    if rows != [] && x.turnNumber > rows[0].turnNumber {
      InsertSorted(x, rows[1..]);
      InsertLowerBound(x, rows[1..], rows[0].turnNumber);
    }
  }

  /** A bound below `x` and below every row stays below every row after the insertion. */
  lemma {:induction false} InsertLowerBound(x: TurnRow, rows: seq<TurnRow>, bound: int)
    requires bound <= x.turnNumber
    requires forall i :: 0 <= i < |rows| ==> bound <= rows[i].turnNumber
    ensures forall i :: 0 <= i < |Insert(x, rows)| ==> bound <= Insert(x, rows)[i].turnNumber
  {
    if rows != [] && x.turnNumber > rows[0].turnNumber {
      InsertLowerBound(x, rows[1..], bound);
    }
  }

  /** `ORDER BY turn_number`, ties kept in insertion order. */
  function SortByTurnNumber(rows: seq<TurnRow>): (r: seq<TurnRow>)
    ensures |r| == |rows|
    ensures multiset(r) == multiset(rows)
  {
    if rows == [] then []
    else
      assert rows == [rows[0]] + rows[1..];
      Insert(rows[0], SortByTurnNumber(rows[1..]))
  }

  lemma {:induction false} SortIsSorted(rows: seq<TurnRow>)
    ensures SortedByTurnNumber(SortByTurnNumber(rows))
  {
    if rows != [] {
      SortIsSorted(rows[1..]);
      InsertSorted(rows[0], SortByTurnNumber(rows[1..]));
    }
  }

  /** At most this many turns are read back as history. */
  const HistoryLimit := 10

  /** `SELECT ... WHERE conversation_id = %s ORDER BY turn_number LIMIT 10`. */
  function HistoryRows(turns: seq<TurnRow>, conversationId: Uuid): seq<TurnRow> {
    var sorted := SortByTurnNumber(TurnsOf(turns, conversationId));
    if |sorted| <= HistoryLimit then sorted else sorted[..HistoryLimit]
  }

  /** The history rows are at most ten rows of the conversation, in turn
      order, and they are the ten with the LOWEST turn numbers: any turn of
      the conversation left out numbers no lower than every row kept. */
  lemma HistoryRowsAreFirstTen(turns: seq<TurnRow>, conversationId: Uuid)
    ensures var rows := HistoryRows(turns, conversationId);
      |rows| == if CountTurns(turns, conversationId) <= HistoryLimit then CountTurns(turns, conversationId) else HistoryLimit
    ensures var rows := HistoryRows(turns, conversationId);
      SortedByTurnNumber(rows) && forall k :: 0 <= k < |rows| ==> rows[k] in turns && rows[k].conversationId == conversationId
    ensures var rows := HistoryRows(turns, conversationId);
      forall t :: t in TurnsOf(turns, conversationId) && t !in rows ==>
        forall k :: 0 <= k < |rows| ==> rows[k].turnNumber <= t.turnNumber
  {
    SortIsSorted(TurnsOf(turns, conversationId));
    HistoryRowsBelong(turns, conversationId);
    HistoryRowsLowest(turns, conversationId);
  }

  lemma HistoryRowsBelong(turns: seq<TurnRow>, conversationId: Uuid)
    ensures var rows := HistoryRows(turns, conversationId);
      forall k :: 0 <= k < |rows| ==> rows[k] in turns && rows[k].conversationId == conversationId
  {
    var all := TurnsOf(turns, conversationId);
    var sorted := SortByTurnNumber(all);
    var rows := HistoryRows(turns, conversationId);
    forall k | 0 <= k < |rows| ensures rows[k] in turns && rows[k].conversationId == conversationId {
      assert rows[k] == sorted[k];
      assert sorted[k] in multiset(all);
      TurnsOfMembership(turns, conversationId, rows[k]);
    }
  }

  lemma HistoryRowsLowest(turns: seq<TurnRow>, conversationId: Uuid)
    ensures var rows := HistoryRows(turns, conversationId);
      forall t :: t in TurnsOf(turns, conversationId) && t !in rows ==>
        forall k :: 0 <= k < |rows| ==> rows[k].turnNumber <= t.turnNumber
  {
    var all := TurnsOf(turns, conversationId);
    var sorted := SortByTurnNumber(all);
    var rows := HistoryRows(turns, conversationId);
    SortIsSorted(all);
    forall t | t in all && t !in rows
      ensures forall k :: 0 <= k < |rows| ==> rows[k].turnNumber <= t.turnNumber
    {
      assert t in multiset(sorted);
      var m :| 0 <= m < |sorted| && sorted[m] == t;
      assert forall k :: 0 <= k < |rows| ==> sorted[k] == rows[k];
      assert m >= |rows|;
      forall k | 0 <= k < |rows| ensures rows[k].turnNumber <= t.turnNumber {
        assert rows[k] == sorted[k];
      }
    }
  }

  // ---- The store ----

  /** The five tables a turn's assessments and feedback go to, at one moment. */
  datatype Rows = Rows(sentences: seq<SentenceRow>, pronunciationErrors: seq<PronunciationErrorRow>,
    feedback: seq<FeedbackRow>, vocabularyErrors: seq<VocabularyErrorRow>, grammarErrors: seq<GrammarErrorRow>)

  /** Conversation ids are unique, and each conversation's `total_turns`
      counts its turns. */
  predicate Consistent(conversations: seq<ConversationRow>, turns: seq<TurnRow>) {
    (forall i, j :: 0 <= i < j < |conversations| ==> conversations[i].conversationId != conversations[j].conversationId)
    && forall i :: 0 <= i < |conversations| ==>
      conversations[i].totalTurns == CountTurns(turns, conversations[i].conversationId)
  }

  /** The database: one sequence of rows per table. */
  class Db {
    var conversations: seq<ConversationRow>
    var turns: seq<TurnRow>
    var sentences: seq<SentenceRow>
    var pronunciationErrors: seq<PronunciationErrorRow>
    var feedback: seq<FeedbackRow>
    var vocabularyErrors: seq<VocabularyErrorRow>
    var grammarErrors: seq<GrammarErrorRow>

    /** The five per-turn tables as they stand. */
    function RowsNow(): Rows
      reads this`sentences, this`pronunciationErrors, this`feedback, this`vocabularyErrors, this`grammarErrors
    {
      Rows(sentences, pronunciationErrors, feedback, vocabularyErrors, grammarErrors)
    }

    /** The two tables agree, as `Consistent` says. */
    predicate Valid()
      reads this`conversations, this`turns
    {
      Consistent(conversations, turns)
    }

    constructor()
      ensures Valid()
      ensures conversations == [] && turns == [] && sentences == [] && pronunciationErrors == []
      ensures feedback == [] && vocabularyErrors == [] && grammarErrors == []
    {
      conversations, turns, sentences, pronunciationErrors := [], [], [], [];
      feedback, vocabularyErrors, grammarErrors := [], [], [];
    }

    method InsertConversation(row: ConversationRow)
      modifies this`conversations
      ensures conversations == old(conversations) + [row]
    {
      conversations := conversations + [row];
    }

    method InsertTurn(row: TurnRow)
      modifies this`turns
      ensures turns == old(turns) + [row]
    {
      turns := turns + [row];
    }

    method InsertSentence(row: SentenceRow)
      modifies this`sentences
      ensures sentences == old(sentences) + [row]
    {
      sentences := sentences + [row];
    }

    method InsertPronunciationError(row: PronunciationErrorRow)
      modifies this`pronunciationErrors
      ensures pronunciationErrors == old(pronunciationErrors) + [row]
    {
      pronunciationErrors := pronunciationErrors + [row];
    }

    method InsertFeedback(row: FeedbackRow)
      modifies this`feedback
      ensures feedback == old(feedback) + [row]
    {
      feedback := feedback + [row];
    }

    method InsertVocabularyError(row: VocabularyErrorRow)
      modifies this`vocabularyErrors
      ensures vocabularyErrors == old(vocabularyErrors) + [row]
    {
      vocabularyErrors := vocabularyErrors + [row];
    }

    method InsertGrammarError(row: GrammarErrorRow)
      modifies this`grammarErrors
      ensures grammarErrors == old(grammarErrors) + [row]
    {
      grammarErrors := grammarErrors + [row];
    }

    /** `UPDATE turns SET llm_response = %s WHERE turn_id = %s` */
    method SetLlmResponse(turnId: Uuid, response: string)
      modifies this`turns
      ensures turns == WithLlmResponse(old(turns), turnId, response)
    {
      turns := WithLlmResponse(turns, turnId, response);
    }

    /** `UPDATE conversations SET total_turns = total_turns + 1 WHERE conversation_id = %s` */
    method CountTurn(conversationId: Uuid)
      modifies this`conversations
      ensures conversations == WithTurnCounted(old(conversations), conversationId)
    {
      conversations := WithTurnCounted(conversations, conversationId);
    }

    /** `UPDATE conversations SET status = 'completed', ended_at = %s WHERE conversation_id = %s` */
    method Complete(conversationId: Uuid, endedAt: Timestamp)
      modifies this`conversations
      ensures conversations == MarkedCompleted(old(conversations), conversationId, endedAt)
    {
      conversations := MarkedCompleted(conversations, conversationId, endedAt);
    }

    /** `SELECT user_id FROM conversations WHERE conversation_id = %s`,
        `None` when no row matches. */
    function UserIdOf(conversationId: Uuid): (u: Option<Uuid>)
      reads this`conversations
      ensures u.None? <==> forall i :: 0 <= i < |conversations| ==> conversations[i].conversationId != conversationId
      ensures u.Some? ==> exists i :: (0 <= i < |conversations| && conversations[i].conversationId == conversationId
                                       && conversations[i].userId == u.value)
    {
      FirstUserId(conversations, conversationId)
    }
  }

  function FirstUserId(rows: seq<ConversationRow>, conversationId: Uuid): (u: Option<Uuid>)
    ensures u.None? <==> forall i :: 0 <= i < |rows| ==> rows[i].conversationId != conversationId
    ensures u.Some? ==> exists i :: 0 <= i < |rows| && rows[i].conversationId == conversationId && rows[i].userId == u.value
  {
    if rows == [] then None
    else if rows[0].conversationId == conversationId then Some(rows[0].userId)
    else
      var u := FirstUserId(rows[1..], conversationId);
      assert forall i :: 1 <= i < |rows| ==> rows[i] == rows[1..][i - 1];
      u
  }

  // ---- Updates as functions of the table ----

  /** The turns with `llm_response` set on the row(s) of `turnId`. */
  function WithLlmResponse(turns: seq<TurnRow>, turnId: Uuid, response: string): (r: seq<TurnRow>)
    ensures |r| == |turns|
    ensures forall i :: 0 <= i < |r| ==>
      r[i] == if turns[i].turnId == turnId then turns[i].(llmResponse := Some(response)) else turns[i]
  {
    seq(|turns|, i requires 0 <= i < |turns| =>
      if turns[i].turnId == turnId then turns[i].(llmResponse := Some(response)) else turns[i])
  }

  /** Setting a response never moves a turn to another conversation, so
      every conversation keeps its turn count. */
  lemma {:induction false} LlmResponseKeepsCounts(turns: seq<TurnRow>, turnId: Uuid, response: string, conversationId: Uuid)
    ensures CountTurns(WithLlmResponse(turns, turnId, response), conversationId) == CountTurns(turns, conversationId)
  {
    if turns != [] {
      var init := turns[..|turns| - 1];
      var r := WithLlmResponse(turns, turnId, response);
      LlmResponseKeepsCounts(init, turnId, response, conversationId);
      assert r[..|r| - 1] == WithLlmResponse(init, turnId, response);
    }
  }

  /** Setting the response of a turn id only the last row carries rewrites
      that row alone. */
  lemma LlmResponseOnNewTurn(turns: seq<TurnRow>, row: TurnRow, response: string)
    requires forall i :: 0 <= i < |turns| ==> turns[i].turnId != row.turnId
    ensures WithLlmResponse(turns + [row], row.turnId, response) == turns + [row.(llmResponse := Some(response))]
  {
  }

  /** A turn appended to a conversation adds one to its count and nothing
      to any other. */
  lemma CountAppend(turns: seq<TurnRow>, row: TurnRow, conversationId: Uuid)
    ensures CountTurns(turns + [row], conversationId) ==
      CountTurns(turns, conversationId) + if row.conversationId == conversationId then 1 else 0
  {
    assert (turns + [row])[..|turns + [row]| - 1] == turns;
  }

  /** The conversations with `total_turns` raised by one on the row(s) of `conversationId`. */
  function WithTurnCounted(rows: seq<ConversationRow>, conversationId: Uuid): (r: seq<ConversationRow>)
    ensures |r| == |rows|
    ensures forall i :: 0 <= i < |r| ==>
      r[i].conversationId == rows[i].conversationId
      && r[i].totalTurns == rows[i].totalTurns + (if rows[i].conversationId == conversationId then 1 else 0)
      && r[i] == rows[i].(totalTurns := r[i].totalTurns)
  {
    seq(|rows|, i requires 0 <= i < |rows| =>
      if rows[i].conversationId == conversationId then rows[i].(totalTurns := rows[i].totalTurns + 1) else rows[i])
  }

  /** The conversations with the row(s) of `conversationId` marked completed at `endedAt`. */
  function MarkedCompleted(rows: seq<ConversationRow>, conversationId: Uuid, endedAt: Timestamp): (r: seq<ConversationRow>)
    ensures |r| == |rows|
    ensures forall i :: 0 <= i < |r| ==> r[i].conversationId == rows[i].conversationId && r[i].totalTurns == rows[i].totalTurns
    ensures forall i :: 0 <= i < |r| && rows[i].conversationId == conversationId ==>
      r[i].status == "completed" && r[i].endedAt == Some(endedAt)
      && r[i].userId == rows[i].userId && r[i].topic == rows[i].topic && r[i].startedAt == rows[i].startedAt
    ensures forall i :: 0 <= i < |r| && rows[i].conversationId != conversationId ==> r[i] == rows[i]
  {
    seq(|rows|, i requires 0 <= i < |rows| =>
      if rows[i].conversationId == conversationId then rows[i].(status := "completed", endedAt := Some(endedAt)) else rows[i])
  }
}
