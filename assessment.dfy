/** The pronunciation result builder (app/service/azure_service.py,
    `assess_pronunciation`): the recognizer itself is an abstract outcome;
    what is modelled is how its JSON words become word errors and how a
    failure becomes a degraded, zero-score result. */
module Assessment {
  import opened Wrappers
  import opened Models

  /** Below this accuracy a word counts as mispronounced. */
  const ErrorThreshold: real := 60.0

  /** `word_data.get("PronunciationAssessment", {}).get("AccuracyScore", 100)` */
  function AccuracyOf(w: WordData): real {
    match w.pronunciationAssessment
    case None => 100.0
    case Some(a) => a.accuracyScore.GetOr(100.0)
  }

  /** `word_data.get("PronunciationAssessment", {}).get("ErrorType", "None")` */
  function ErrorTypeOf(w: WordData): string {
    match w.pronunciationAssessment
    case None => "None"
    case Some(a) => a.errorType.GetOr("None")
  }

  predicate IsWordError(w: WordData) {
    AccuracyOf(w) < ErrorThreshold || ErrorTypeOf(w) != "None"
  }

  /** The `WordError` recorded for a flagged word: no phoneme detail, and the
      word text defaults to "". */
  function ToWordError(w: WordData): WordError {
    WordError(w.word.GetOr(""), None, ErrorTypeOf(w), Some(AccuracyOf(w)), None, None)
  }

  /** Every error the builder produces carries no phoneme detail, and its
      accuracy is present. */
  predicate WellFormedError(e: WordError) {
    e.phoneme == None && e.expectedPhoneme == None && e.actualPhoneme == None && e.accuracyScore.Some?
  }

  /** The word errors of `ws`, in word order; defined from the last word so
      that it follows the appending loop. */
  function ErrorsOf(ws: seq<WordData>): (errors: seq<WordError>)
    ensures |errors| <= |ws|
    ensures forall k :: 0 <= k < |errors| ==> WellFormedError(errors[k])
  {
    if ws == [] then []
    else
      var init := ErrorsOf(ws[..|ws| - 1]);
      var w := ws[|ws| - 1];
      if IsWordError(w) then init + [ToWordError(w)] else init
  }

  /** The errors of two runs of words, one after the other. */
  lemma {:induction false} ErrorsOfAppend(a: seq<WordData>, b: seq<WordData>)
    ensures ErrorsOf(a + b) == ErrorsOf(a) + ErrorsOf(b)
    decreases |b|
  {
    if b == [] {
      assert a + b == a;
    } else {
      var b' := b[..|b| - 1];
      ErrorsOfAppend(a, b');
      assert (a + b)[..|a + b| - 1] == a + b';
    }
  }

  /** An error is produced exactly for each flagged word, and for no other. */
  lemma {:induction false} ErrorsOfMembership(ws: seq<WordData>, e: WordError)
    ensures e in ErrorsOf(ws) <==> exists k :: 0 <= k < |ws| && IsWordError(ws[k]) && e == ToWordError(ws[k])
  {
    if ws != [] {
      var init := ws[..|ws| - 1];
      ErrorsOfMembership(init, e);
      if e in ErrorsOf(ws) && !(e in ErrorsOf(init)) {
        assert IsWordError(ws[|ws| - 1]) && e == ToWordError(ws[|ws| - 1]);
      }
      if exists k :: 0 <= k < |ws| && IsWordError(ws[k]) && e == ToWordError(ws[k]) {
        var k :| 0 <= k < |ws| && IsWordError(ws[k]) && e == ToWordError(ws[k]);
        if k < |ws| - 1 {
          assert init[k] == ws[k];
        }
      }
    }
  }

  /** No flagged word, no errors; and the converse. */
  lemma {:induction false} ErrorsOfEmpty(ws: seq<WordData>)
    ensures ErrorsOf(ws) == [] <==> forall k :: 0 <= k < |ws| ==> !IsWordError(ws[k])
  {
    if ws != [] {
      var init := ws[..|ws| - 1];
      ErrorsOfEmpty(init);
      if forall k :: 0 <= k < |ws| ==> !IsWordError(ws[k]) {
        assert forall k :: 0 <= k < |init| ==> !IsWordError(init[k]) by {
          forall k | 0 <= k < |init| ensures !IsWordError(init[k]) {
            assert init[k] == ws[k];
          }
        }
      }
    }
  }

  /** When every word is flagged, the errors are the words, one for one. */
  lemma {:induction false} ErrorsOfAllFlagged(ws: seq<WordData>)
    requires forall k :: 0 <= k < |ws| ==> IsWordError(ws[k])
    ensures |ErrorsOf(ws)| == |ws|
    ensures forall k :: 0 <= k < |ws| ==> ErrorsOf(ws)[k] == ToWordError(ws[k])
  {
    if ws != [] {
      var init := ws[..|ws| - 1];
      ErrorsOfAllFlagged(init);
    }
  }

  /** A word without an assessment, or one scored exactly at the threshold
      with no error type, is not an error. */
  lemma DefaultsAreNotErrors(word: Option<string>)
    ensures !IsWordError(WordData(word, None))
    ensures !IsWordError(WordData(word, Some(WordAssessment(None, None))))
    ensures !IsWordError(WordData(word, Some(WordAssessment(Some(60.0), Some("None")))))
    ensures IsWordError(WordData(word, Some(WordAssessment(Some(59.5), None))))
    ensures IsWordError(WordData(word, Some(WordAssessment(None, Some("Omission")))))
  {
  }

  /** The words the builder reads: `NBest[0]["Words"]` when `NBest` is present
      and non-empty, none otherwise. */
  function WordsOf(json: RecognitionJson): (words: seq<WordData>)
    ensures json.nBest.None? ==> words == []
    ensures json.nBest.Some? && json.nBest.value == [] ==> words == []
    ensures json.nBest.Some? && json.nBest.value != [] ==> words == json.nBest.value[0].words.GetOr([])
  {
    match json.nBest
    case None => []
    case Some(entries) => if |entries| > 0 then entries[0].words.GetOr([]) else []
  }

  /** Only the first hypothesis is read: later ones never change the words. */
  lemma WordsOnlyFromFirst(first: NBestEntry, rest: seq<NBestEntry>, other: seq<NBestEntry>)
    ensures WordsOf(RecognitionJson(Some([first] + rest))) == WordsOf(RecognitionJson(Some([first] + other)))
  {
  }

  /** The scores the recognizer attaches to a recognized utterance. */
  datatype SdkScores = SdkScores(
    pronunciation: real, accuracy: real, fluency: real, completeness: real, prosody: Option<real>)

  /** What one `recognize_once` call comes to. */
  datatype RecognitionOutcome =
    | RecognizedSpeech(text: string, scores: SdkScores, json: RecognitionJson)
      /** Any other `result.reason`, as it is printed. */
    | NotRecognized(reason: string)
      /** An exception raised by the SDK, by JSON decoding or by validation. */
    | Raised(message: string)

  /** `str(e)` of the exception the failure path catches. */
  function FailureMessage(outcome: RecognitionOutcome): string
    requires !outcome.RecognizedSpeech?
  {
    match outcome
    case NotRecognized(reason) => "Azure recognition failed: " + reason
    case Raised(message) => message
  }

  /** The result the failure path returns. */
  function Degraded(referenceText: string, sentenceId: Uuid, sentenceNumber: int, message: string): AzurePronunciationResult {
    AzurePronunciationResult(sentenceId, sentenceNumber, referenceText, "", 0.0, 0.0, 0.0, 0.0, None, [], [], ErrorMarker(message))
  }

  predicate IsDegraded(r: AzurePronunciationResult) {
    r.recognizedText == "" && r.pronunciationScore == 0.0 && r.accuracyScore == 0.0
    && r.fluencyScore == 0.0 && r.completenessScore == 0.0 && r.prosodyScore == None
    && r.words == [] && r.errors == [] && r.azureRawData.ErrorMarker?
  }

  /** The result of assessing one sentence. Either branch carries the sentence
      id, number and reference text through; a recognized utterance keeps its
      scores, words and flagged words; anything else is degraded, with the
      failure message as raw data. */
  function Assessed(outcome: RecognitionOutcome, referenceText: string, sentenceId: Uuid, sentenceNumber: int): (r: AzurePronunciationResult)
    ensures r.sentenceId == sentenceId && r.sentenceNumber == sentenceNumber && r.text == referenceText
    ensures outcome.RecognizedSpeech? ==>
      r.recognizedText == outcome.text && r.words == WordsOf(outcome.json)
      && r.errors == ErrorsOf(WordsOf(outcome.json)) && r.azureRawData == Payload(outcome.json)
      && r.pronunciationScore == outcome.scores.pronunciation && r.accuracyScore == outcome.scores.accuracy
      && r.fluencyScore == outcome.scores.fluency && r.completenessScore == outcome.scores.completeness
      && r.prosodyScore == outcome.scores.prosody
    ensures !outcome.RecognizedSpeech? ==> IsDegraded(r) && r.azureRawData.error == FailureMessage(outcome)
  {
    match outcome
    case RecognizedSpeech(text, s, json) =>
      var words := WordsOf(json);
      AzurePronunciationResult(sentenceId, sentenceNumber, referenceText, text,
        s.pronunciation, s.accuracy, s.fluency, s.completeness, s.prosody,
        words, ErrorsOf(words), Payload(json))
    case _ => Degraded(referenceText, sentenceId, sentenceNumber, FailureMessage(outcome))
  }

  /** A recognition without hypotheses, or without words, flags nothing. */
  lemma NoHypothesisNoErrors(text: string, scores: SdkScores, nBest: Option<seq<NBestEntry>>, referenceText: string, sentenceId: Uuid, n: int)
    requires nBest.None? || nBest == Some([]) || (nBest.Some? && nBest.value != [] && nBest.value[0].words.None?)
    ensures Assessed(RecognizedSpeech(text, scores, RecognitionJson(nBest)), referenceText, sentenceId, n).words == []
    ensures Assessed(RecognizedSpeech(text, scores, RecognitionJson(nBest)), referenceText, sentenceId, n).errors == []
  {
  }

  /** The word loop: copies every word and appends an error for each flagged one. */
  method ExtractWords(words: seq<WordData>) returns (wordsData: seq<WordData>, errors: seq<WordError>)
    ensures wordsData == words
    ensures errors == ErrorsOf(words)
  {
    wordsData := [];
    errors := [];
    for i := 0 to |words|
      invariant wordsData == words[..i]
      invariant errors == ErrorsOf(words[..i])
    {
      var w := words[i];
      wordsData := wordsData + [w];
      assert words[..i + 1][..i] == words[..i];
      if IsWordError(w) {
        errors := errors + [ToWordError(w)];
      }
    }
    assert words[..|words|] == words;
  }

  /** `assess_pronunciation`: `recognize` stands for the recognizer run on the
      audio file against the reference text. */
  method AssessPronunciation(
    audioFilePath: string, referenceText: string, sentenceId: Uuid, sentenceNumber: int,
    recognize: (string, string) -> RecognitionOutcome)
    returns (r: AzurePronunciationResult)
    ensures r == Assessed(recognize(audioFilePath, referenceText), referenceText, sentenceId, sentenceNumber)
  {
    var outcome := recognize(audioFilePath, referenceText);
    if outcome.RecognizedSpeech? {
      var json := outcome.json;
      var wordsData, errors := ExtractWords(WordsOf(json));
      var s := outcome.scores;
      r := AzurePronunciationResult(sentenceId, sentenceNumber, referenceText, outcome.text,
        s.pronunciation, s.accuracy, s.fluency, s.completeness, s.prosody,
        wordsData, errors, Payload(json));
    } else {
      r := Degraded(referenceText, sentenceId, sentenceNumber, FailureMessage(outcome));
    }
  }
}
