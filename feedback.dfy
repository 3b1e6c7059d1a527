/** The deterministic part of the feedback and conversation generator
    (app/service/gemini_service.py): the per-sentence summary handed to the
    model, the markdown fence stripper applied to its answer, the fallback
    feedback, the history text and the fixed replies used when the model
    fails. The model call is an abstract function returning `None` when it
    raises; `json.loads` plus validation is an abstract parse. */
module Feedback {
  import opened Wrappers
  import opened Text
  import opened Models

  // ---- The per-sentence summary (lines 36-46) ----

  datatype ErrorSummary = ErrorSummary(word: string, errorType: string, accuracy: Option<real>)

  datatype SummaryEntry = SummaryEntry(
    sentence: string,
    recognized: string,
    pronunciationScore: real,
    accuracyScore: real,
    fluencyScore: real,
    completenessScore: real,
    errors: seq<ErrorSummary>)

  function ErrorSummaryOf(e: WordError): ErrorSummary {
    ErrorSummary(e.word, e.errorType, e.accuracyScore)
  }

  function SummaryOf(r: AzurePronunciationResult): SummaryEntry {
    SummaryEntry(r.text, r.recognizedText, r.pronunciationScore, r.accuracyScore,
      r.fluencyScore, r.completenessScore, seq(|r.errors|, j requires 0 <= j < |r.errors| => ErrorSummaryOf(r.errors[j])))
  }

  /** The append loop: one entry per result, in order, each error reduced to
      its word, type and accuracy. */
  method BuildAzureSummary(results: seq<AzurePronunciationResult>) returns (summary: seq<SummaryEntry>)
    ensures |summary| == |results|
    ensures forall i :: 0 <= i < |results| ==>
      summary[i].sentence == results[i].text && summary[i].recognized == results[i].recognizedText
      && summary[i].pronunciationScore == results[i].pronunciationScore
      && summary[i].accuracyScore == results[i].accuracyScore
      && summary[i].fluencyScore == results[i].fluencyScore
      && summary[i].completenessScore == results[i].completenessScore
      && |summary[i].errors| == |results[i].errors|
    ensures forall i :: 0 <= i < |results| ==> summary[i] == SummaryOf(results[i])
    ensures forall i, j :: 0 <= i < |results| && 0 <= j < |results[i].errors| ==>
      summary[i].errors[j] == ErrorSummary(results[i].errors[j].word, results[i].errors[j].errorType, results[i].errors[j].accuracyScore)
  {
    summary := [];
    for i := 0 to |results|
      invariant |summary| == i
      invariant forall k :: 0 <= k < i ==> summary[k] == SummaryOf(results[k])
    {
      summary := summary + [SummaryOf(results[i])];
    }
  }

  // ---- The markdown fence stripper (lines 113-123) ----

  const Fence := "```"
  const JsonFence := "```json"

  /** `if t.startswith("```json"): t = t[7:]` */
  function DropJsonFence(t: string): string {
    if StartsWith(t, JsonFence) then t[7..] else t
  }

  /** `if t.startswith("```"): t = t[3:]` */
  function DropOpenFence(t: string): string {
    if StartsWith(t, Fence) then t[3..] else t
  }

  /** `if t.endswith("```"): t = t[:-3]` */
  function DropCloseFence(t: string): string {
    if EndsWith(t, Fence) then t[..|t| - 3] else t
  }

  /** The text handed to the JSON parser for a raw model answer. */
  function JsonBody(raw: string): string {
    Strip(DropCloseFence(DropOpenFence(DropJsonFence(Strip(raw)))))
  }

  /** The stripper as written: the answer is reassigned step by step. */
  method ExtractJsonBody(raw: string) returns (body: string)
    ensures body == JsonBody(raw)
  {
    var responseText := Strip(raw);
    ghost var t0 := responseText;
    if StartsWith(responseText, JsonFence) {
      responseText := responseText[7..];
    }
    assert responseText == DropJsonFence(t0);
    ghost var t1 := responseText;
    if StartsWith(responseText, Fence) {
      responseText := responseText[3..];
    }
    assert responseText == DropOpenFence(t1);
    ghost var t2 := responseText;
    if EndsWith(responseText, Fence) {
      responseText := responseText[..|responseText| - 3];
    }
    assert responseText == DropCloseFence(t2);
    body := Strip(responseText);
  }

  /** Text opening with "```json" opens with a fence. */
  lemma JsonFenceOpensFence(t: string)
    ensures StartsWith(t, JsonFence) ==> StartsWith(t, Fence)
  {
    if StartsWith(t, JsonFence) {
      assert t[..3] == t[..7][..3];
    }
  }

  /** A fence followed by B opens with "```json" only when B opens with "json". */
  lemma FencedJsonOpening(b: string)
    ensures StartsWith(Fence + b + Fence, JsonFence) ==> StartsWith(b, "json")
  {
    var t := Fence + b + Fence;
    if |b| >= 4 {
      if StartsWith(t, JsonFence) {
        assert b[..4] == t[3..7];
      }
    } else if |t| >= 7 {
      assert t[3 + |b|] == '`';
      assert JsonFence[3 + |b|] != '`';
    }
  }

  /** An answer fenced as "```json" B "```" is parsed as B, stripped, whenever
      B does not itself open with a fence. */
  lemma JsonFencedBody(raw: string, b: string)
    requires Strip(raw) == JsonFence + b + Fence
    requires !StartsWith(b, Fence)
    ensures JsonBody(raw) == Strip(b)
  {
    var t0 := JsonFence + b + Fence;
    assert StartsWith(t0, JsonFence) by { assert t0[..7] == JsonFence; }
    var t1 := t0[7..];
    assert t1 == b + Fence;
    assert DropJsonFence(t0) == t1;
    if StartsWith(t1, Fence) {
      // b is "", "`" or "``": cutting the fence leaves b again.
      ShortBacktickPrefix(b);
      assert DropOpenFence(t1) == b;
      assert DropCloseFence(b) == b;
    } else {
      assert EndsWith(t1, Fence) by { assert t1[|t1| - 3..] == Fence; }
      assert t1[..|t1| - 3] == b;
    }
  }

  /** A string shorter than a fence that, followed by a fence, starts with one
      is made of backticks. */
  lemma ShortBacktickPrefix(b: string)
    requires !StartsWith(b, Fence) && StartsWith(b + Fence, Fence)
    ensures (b + Fence)[3..] == b && !EndsWith(b, Fence)
  {
    PrefixOfAppend(b, Fence);
    var s := b + Fence;
    forall k | 0 <= k < |b| ensures b[k] == '`' {
      assert s[k] == Fence[k];
    }
    assert |s[3..]| == |b|;
    forall k | 0 <= k < |b| ensures s[3..][k] == b[k] {
      assert s[3 + k] == '`';
    }
  }

  lemma PrefixOfAppend(b: string, c: string)
    ensures |b| >= 3 ==> (b + c)[..3] == b[..3]
  {
  }

  /** An answer with no fence at either end is only stripped. */
  lemma UnfencedBody(raw: string)
    requires !StartsWith(Strip(raw), Fence) && !EndsWith(Strip(raw), Fence)
    ensures JsonBody(raw) == Strip(raw)
  {
    JsonFenceOpensFence(Strip(raw));
    StripIdempotent(raw);
  }

  /** A plain "```" fence around B, with B not opening with "json" or a
      fence, is removed as well. */
  lemma PlainFencedBody(raw: string, b: string)
    requires Strip(raw) == Fence + b + Fence
    requires !StartsWith(b, "json") && |b| >= 3
    ensures JsonBody(raw) == Strip(b)
  {
    var t0 := Fence + b + Fence;
    FencedJsonOpening(b);
    assert StartsWith(t0, Fence) by { assert t0[..3] == Fence; }
    var t2 := t0[3..];
    assert t2 == b + Fence;
    assert EndsWith(t2, Fence) by { assert t2[|t2| - 3..] == Fence; }
    assert t2[..|t2| - 3] == b;
  }

  // ---- The fallback feedback (lines 127-143) ----

  /** Sum of the pronunciation scores, from the last result back. */
  function SumPronunciation(results: seq<AzurePronunciationResult>): real {
    if results == [] then 0.0
    else SumPronunciation(results[..|results| - 1]) + results[|results| - 1].pronunciationScore
  }

  /** The guarded mean: 0 for no results, no division by zero. */
  function MeanPronunciation(results: seq<AzurePronunciationResult>): (m: real)
    ensures results == [] ==> m == 0.0
    ensures results != [] ==> m * (|results| as real) == SumPronunciation(results)
  {
    if results != [] then SumPronunciation(results) / (|results| as real) else 0.0
  }

  const Categories: set<string> := {"pronunciation", "vocabulary", "grammar", "fluency"}

  /** Every category mapped to no remarks. */
  const EmptyRemarks: Remarks := map["pronunciation" := [], "vocabulary" := [], "grammar" := [], "fluency" := []]

  const FallbackComment := "Good effort! Keep practicing."

  /** The feedback returned when the model call or the parse fails. */
  function FallbackFeedback(results: seq<AzurePronunciationResult>): GeminiFeedbackResult {
    var avg := MeanPronunciation(results);
    GeminiFeedbackResult(avg, 70.0, 70.0, 70.0, (avg + 70.0 + 70.0 + 70.0) / 4.0,
      FallbackComment, EmptyRemarks, EmptyRemarks, [], [])
  }

  predicate InScoreRange(x: real) {
    0.0 <= x <= 100.0
  }

  lemma {:induction false} SumBounds(results: seq<AzurePronunciationResult>)
    requires forall k :: 0 <= k < |results| ==> InScoreRange(results[k].pronunciationScore)
    ensures 0.0 <= SumPronunciation(results) <= 100.0 * (|results| as real)
  {
    if results != [] {
      var init := results[..|results| - 1];
      assert forall k :: 0 <= k < |init| ==> init[k] == results[k];
      SumBounds(init);
    }
  }

  /** The fallback record: the mean pronunciation score, 70 for the other
      three, their mean as overall, the fixed comment, every category with
      no remarks and no errors. With scores on the 0-100 scale, every
      fallback score stays on it, and the overall score is at least 52.5. */
  lemma FallbackShape(results: seq<AzurePronunciationResult>)
    requires forall k :: 0 <= k < |results| ==> InScoreRange(results[k].pronunciationScore)
    ensures var f := FallbackFeedback(results);
      InScoreRange(f.pronunciationScore) && f.vocabularyScore == 70.0 && f.grammarScore == 70.0
      && f.fluencyScore == 70.0 && 52.5 <= f.overallScore <= 77.5
      && f.overallScore * 4.0 == f.pronunciationScore + 210.0
      && f.strengths.Keys == Categories && f.improvements.Keys == Categories
      && (forall c :: c in Categories ==> f.strengths[c] == [] && f.improvements[c] == [])
      && f.vocabularyErrors == [] && f.grammarErrors == [] && f.overallComment == FallbackComment
  {
    SumBounds(results);
    if results != [] {
      var n := |results| as real;
      var m := MeanPronunciation(results);
      assert m * n <= 100.0 * n;
    }
  }

  /** The fallback for no results is 0 and 52.5: the empty list is guarded. */
  lemma FallbackForNoResults()
    ensures FallbackFeedback([]).pronunciationScore == 0.0
    ensures FallbackFeedback([]).overallScore == 52.5
  {
  }

  function ScoredResult(score: real): AzurePronunciationResult {
    AzurePronunciationResult("", 1, "", "", score, 0.0, 0.0, 0.0, None, [], [], ErrorMarker(""))
  }

  /** Scores 80, 60 and 100 give a mean of 80 and an overall score of 72.5. */
  lemma FallbackExample()
    ensures FallbackFeedback([ScoredResult(80.0), ScoredResult(60.0), ScoredResult(100.0)]).pronunciationScore == 80.0
    ensures FallbackFeedback([ScoredResult(80.0), ScoredResult(60.0), ScoredResult(100.0)]).overallScore == 72.5
  {
    var rs := [ScoredResult(80.0), ScoredResult(60.0), ScoredResult(100.0)];
    var r1 := [ScoredResult(80.0)];
    var r2 := [ScoredResult(80.0), ScoredResult(60.0)];
    assert r1[..0] == [];
    assert SumPronunciation(r1) == 80.0;
    assert r2[..1] == r1;
    assert SumPronunciation(r2) == 140.0;
    assert rs[..2] == r2;
    assert SumPronunciation(rs) == 240.0;
  }

  // ---- Comprehensive feedback ----

  /** The prompt sent for feedback: the user's text and the summary, laid
      out by the fixed template (its JSON rendering is not modelled). */
  datatype FeedbackPrompt = FeedbackPrompt(userText: string, summary: seq<SummaryEntry>)

  /** `generate_comprehensive_feedback`: the model's answer, parsed after
      fence stripping, or the fallback when the call raises or the parse
      fails. */
  function ComprehensiveFeedback(
    userText: string, results: seq<AzurePronunciationResult>,
    generate: FeedbackPrompt -> Option<string>, parse: string -> Option<GeminiFeedbackResult>): (r: GeminiFeedbackResult)
    ensures var answer := generate(FeedbackPrompt(userText, seq(|results|, i requires 0 <= i < |results| => SummaryOf(results[i]))));
      if answer.Some? && parse(JsonBody(answer.value)).Some? then r == parse(JsonBody(answer.value)).value
      else r == FallbackFeedback(results)
  {
    var summary := seq(|results|, i requires 0 <= i < |results| => SummaryOf(results[i]));
    match generate(FeedbackPrompt(userText, summary))
    case None => FallbackFeedback(results)
    case Some(raw) =>
      match parse(JsonBody(raw))
      case Some(f) => f
      case None => FallbackFeedback(results)
  }

  method GenerateComprehensiveFeedback(
    userText: string, results: seq<AzurePronunciationResult>,
    generate: FeedbackPrompt -> Option<string>, parse: string -> Option<GeminiFeedbackResult>)
    returns (r: GeminiFeedbackResult)
    ensures r == ComprehensiveFeedback(userText, results, generate, parse)
  {
    var summary := BuildAzureSummary(results);
    assert summary == seq(|results|, i requires 0 <= i < |results| => SummaryOf(results[i]));
    var answer := generate(FeedbackPrompt(userText, summary));
    if answer.None? {
      return FallbackFeedback(results);
    }
    var body := ExtractJsonBody(answer.value);
    var parsed := parse(body);
    if parsed.None? {
      return FallbackFeedback(results);
    }
    r := parsed.value;
  }

  // ---- History text (lines 156-163) ----

  const UserPrefix := "User: "
  const AssistantPrefix := "Assistant: "

  function HistoryLine(m: Message): string {
    (if m.role == "user" then UserPrefix else AssistantPrefix) + m.content
  }

  /** `history[-5:]` */
  function Recent(history: seq<Message>): seq<Message> {
    if |history| <= 5 then history else history[|history| - 5..]
  }

  function HistoryLines(history: seq<Message>): (lines: seq<string>)
    ensures |lines| == |Recent(history)|
  {
    var recent := Recent(history);
    seq(|recent|, i requires 0 <= i < |recent| => HistoryLine(recent[i]))
  }

  /** The history block of the reply prompt; `None` is read as no history. */
  function HistoryText(history: Option<seq<Message>>): string {
    Join(HistoryLines(history.GetOr([])), "\n")
  }

  /** At most the last five messages are kept, the most recent ones, in order. */
  lemma RecentIsLastFive(history: seq<Message>)
    ensures |Recent(history)| == if |history| <= 5 then |history| else 5
    ensures Recent(history) == history[|history| - |Recent(history)|..]
  {
  }

  /** A line starts with "User: " exactly when the role is "user", and with
      "Assistant: " otherwise. */
  lemma LinePrefix(m: Message)
    ensures StartsWith(HistoryLine(m), UserPrefix) <==> m.role == "user"
    ensures m.role != "user" ==> StartsWith(HistoryLine(m), AssistantPrefix)
  {
    var line := HistoryLine(m);
    if m.role != "user" {
      assert line[0] == 'A';
      assert line[..|AssistantPrefix|] == AssistantPrefix;
    } else {
      assert line[..|UserPrefix|] == UserPrefix;
    }
  }

  /** No history and an empty one give the same, empty, text. */
  lemma NoneIsEmptyHistory()
    ensures HistoryText(None) == HistoryText(Some([])) == ""
  {
  }

  /** When no message holds a line break, the text splits back into one line
      per recent message, in order. */
  lemma HistoryTextLines(history: seq<Message>)
    requires |history| >= 1
    requires forall k :: 0 <= k < |history| ==> Excludes(history[k].content, '\n')
    ensures SplitOn(HistoryText(Some(history)), '\n') == HistoryLines(history)
  {
    var recent := Recent(history);
    var lines := HistoryLines(history);
    forall k | 0 <= k < |lines| ensures Excludes(lines[k], '\n') {
      var m := recent[k];
      assert m == history[|history| - |recent| + k];
      var p := if m.role == "user" then UserPrefix else AssistantPrefix;
      assert lines[k] == p + m.content;
      forall i | 0 <= i < |lines[k]| ensures lines[k][i] != '\n' {
        if i >= |p| {
          assert lines[k][i] == m.content[i - |p|];
        }
      }
    }
    SplitOnJoin(lines, '\n');
  }

  // ---- Conversation reply and welcome (lines 165-209) ----

  const ReplyFallback := "That's interesting! Could you tell me more about it?"

  const WelcomeFallback := "Hello! I'm excited to practice English with you today. What would you like to talk about?"

  /** The reply prompt around the history text and the user's words. */
  const ResponseLead := "You are a friendly English conversation partner. Continue the conversation naturally.\n\nPrevious conversation:\n"
  const ResponseTail := "\n\nRespond naturally and engagingly. Keep your response concise (1-3 sentences). Ask follow-up questions if appropriate."
  function ResponsePrompt(historyText: string, userText: string): string {
    ResponseLead + historyText + "\n\nUser: " + userText + ResponseTail
  }

  /** The model's answer, stripped, or `fallback` when the call raised. */
  function AnswerOr(answer: Option<string>, fallback: string): (r: string)
    ensures answer.None? ==> r == fallback
    ensures answer.Some? ==> r == Strip(answer.value) && Trimmed(r)
  {
    match answer
    case Some(t) => Strip(t)
    case None => fallback
  }

  /** `generate_conversation_response`: the stripped answer, or the fixed
      follow-up question when the call raises. */
  function ConversationResponse(userText: string, history: Option<seq<Message>>, generate: string -> Option<string>): (r: string)
    ensures var answer := generate(ResponsePrompt(HistoryText(history), userText));
      (answer.None? ==> r == ReplyFallback) && (answer.Some? ==> r == Strip(answer.value))
  {
    AnswerOr(generate(ResponsePrompt(HistoryText(history), userText)), ReplyFallback)
  }

  /** Python truthiness of an optional string. */
  predicate Truthy(topic: Option<string>) {
    topic.Some? && topic.value != ""
  }

  const WelcomeLead := "Generate a warm, friendly greeting for starting an English conversation about '"
  const WelcomeTopicTail := "'. Keep it brief (1-2 sentences)."
  const GenericWelcomePrompt := "Generate a warm, friendly greeting for starting an English conversation practice. Keep it brief (1-2 sentences)."

  function WelcomePrompt(topic: Option<string>): string {
    if Truthy(topic) then WelcomeLead + topic.value + WelcomeTopicTail else GenericWelcomePrompt
  }

  /** The prompt names the topic, between quotes, exactly when a non-empty
      topic is given; otherwise it is the generic one, which quotes nothing. */
  lemma WelcomeMentionsTopic(topic: Option<string>)
    ensures Truthy(topic) ==>
      WelcomePrompt(topic)[|WelcomeLead| - 1] == '\''
      && WelcomePrompt(topic)[|WelcomeLead|..|WelcomeLead| + |topic.value|] == topic.value
    ensures Truthy(topic) <==> WelcomePrompt(topic) != GenericWelcomePrompt
  {
    if Truthy(topic) {
      var p := WelcomePrompt(topic);
      assert p[|WelcomeLead|..|WelcomeLead| + |topic.value|] == topic.value;
      assert p[72] == WelcomeLead[72] == 'a';
      assert GenericWelcomePrompt[72] == 'p';
    }
  }

  /** `generate_welcome_message`: the stripped answer, or the fixed greeting. */
  function WelcomeMessage(topic: Option<string>, generate: string -> Option<string>): (r: string)
    ensures var answer := generate(WelcomePrompt(topic));
      (answer.None? ==> r == WelcomeFallback) && (answer.Some? ==> r == Strip(answer.value))
  {
    AnswerOr(generate(WelcomePrompt(topic)), WelcomeFallback)
  }
}
