# HACKOHIO conversation pipeline, modelled in Dafny

This project models the English-conversation practice back end of HACKOHIO. A
user starts a conversation and gets a spoken welcome. Each spoken turn is then
processed as follows:

- the audio is normalised for the pronunciation assessor;
- the original audio is transcribed;
- the transcript is split into sentences;
- each sentence is assessed against the audio;
- the language model writes comprehensive feedback;
- the rows of the turn are stored;
- the feedback and a conversational reply are spoken into two audio files.

Ending a conversation marks it completed and reports its statistics.

The model keeps the deterministic rules of that pipeline; where the source goes wrong (see "## Findings"), it models both the code as written and the evident intent. Every outside
service is a function value handed in, so its outcome is an input:

- speech recognition;
- pronunciation assessment;
- the language model;
- ffmpeg;
- speech synthesis;
- number formatting;
- JSON parsing.

Other parts are modelled as plain state or values:

- The database is a `Db` class with one sequence of rows per table. Each INSERT and UPDATE is one method; the SELECTs are functions of the tables.
- The audio directory is a `FileStore` class mapping paths to bytes.
- Fresh UUIDs and timestamps are parameters.
- Scores are exact `real`s.

Modules, one per file:

| file | module | models |
|---|---|---|
| wrappers.dfy | `Wrappers` | `Option` and `Result` |
| text.dfy | `Text` | the Python `str` operations used: `isspace`, `strip`, `startswith`, `endswith`, `join`, `split` |
| models.dfy | `Models` | the records of `app/models.py` |
| segmenter.dfy | `Segmenter` | `split_into_sentences` |
| assessment.dfy | `Assessment` | word/error extraction and the degraded result of `assess_pronunciation` |
| feedback.dfy | `Feedback` | summary projection, fence stripping, fallback feedback, history text, reply and welcome fallbacks |
| paths.dfy | `Paths` | the `pathlib` operations used: `name`, `suffix`, `stem`, `with_suffix`, `with_name` |
| speech.dfy | `Speech` | `text_to_speech`, `_create_dummy_file` and the 44-byte placeholder WAV |
| store.dfy | `Store` | the tables, the inserts and updates, and the history and user-id queries |
| conversation.dfy | `Conversation` | `start_conversation`, `process_turn`, `end_conversation` and their helpers |

## Model

| member | source | states |
|---|---|---|
| Text.Strip | app/service/whisper_service.py:62 | `strip()` returns a trimmed infix of its input whose two margins are all whitespace; it is empty exactly when the input is all whitespace |
| Text.StripIdempotent | app/service/whisper_service.py:62 | stripping twice is stripping once |
| Text.StripTrimmed | app/service/whisper_service.py:62 | a string with no whitespace at either end is left as it is |
| Text.SplitOn | app/service/gemini_service.py:160 | `split` on one character returns at least one part, and no part holds the separator |
| Text.JoinSplitOn | app/service/gemini_service.py:160 | joining the parts of a split with the separator gives the text back |
| Text.SplitOnJoin | app/service/gemini_service.py:160 | splitting a `"\n".join` of line-break-free parts gives back exactly those parts |
| Segmenter.SplitFrom | app/service/whisper_service.py:60 | `re.split(r'[.!?]+', …)` yields at least one piece, and no piece holds `.`, `!` or `?` |
| Segmenter.SeparatorsFrom | app/service/whisper_service.py:60 | the split cuts out one fewer run than it returns pieces, and each run is a non-empty run of terminal marks |
| Segmenter.RegexSplitRejoins | app/service/whisper_service.py:60 | putting the cut-out runs back between the pieces rebuilds the input exactly |
| Segmenter.RegexSplitNoTerminal | app/service/whisper_service.py:60 | text without terminal marks splits into itself alone |
| Segmenter.Clean | app/service/whisper_service.py:62 | the comprehension keeps at most as many pieces as it gets, each non-empty and stripped |
| Segmenter.CleanAppend | app/service/whisper_service.py:62 | the comprehension over two runs of pieces is that of the first followed by that of the second, so pieces stay in order |
| Segmenter.CleanKeeps | app/service/whisper_service.py:62 | every piece that is not blank once stripped is kept, stripped, right after what the pieces before it gave |
| Segmenter.CleanMembership | app/service/whisper_service.py:62 | a string is kept if and only if it is non-empty and some piece strips to it |
| Segmenter.SplitIntoSentences | app/service/whisper_service.py:47-63 | every sentence returned is non-empty, already stripped, and holds no `.`, `!` or `?` |
| Segmenter.BlankHasNoSentences | app/service/whisper_service.py:60-62 | empty or whitespace-only text gives `[]` |
| Segmenter.UnpunctuatedIsOneSentence | app/service/whisper_service.py:60-62 | non-blank text without terminal marks gives `[text.strip()]` |
| Segmenter.SplitExample | app/service/whisper_service.py:60-62 | "Hello. How are you?" gives ["Hello", "How are you"] |
| Segmenter.SplitIdempotent | app/service/whisper_service.py:60-63 | splitting any returned sentence again gives exactly that sentence |
| Segmenter.SentencesKeepPieces | app/service/whisper_service.py:60-62 | nothing printable is dropped: every piece between terminal runs that is not blank is returned, stripped, after the sentences of the pieces before it |
| Segmenter.SentencesAreStrippedPieces | app/service/whisper_service.py:60-62 | the sentences are exactly the non-blank pieces of the regex split, stripped |
| Segmenter.SentencesOccurInOrder | app/service/whisper_service.py:60-62 | the sentences are infixes of the text, occurring left to right without overlap |
| Assessment.ErrorsOf | app/service/azure_service.py:80-96 | at most one error per word; every error has no phoneme, expected or actual phoneme |
| Assessment.ErrorsOfMembership | app/service/azure_service.py:87-96 | an error is produced if and only if some word is flagged (accuracy below 60 or an error type other than "None") and the error is built from that word |
| Assessment.ErrorsOfEmpty | app/service/azure_service.py:87 | there are no errors if and only if no word is flagged |
| Assessment.ErrorsOfAllFlagged | app/service/azure_service.py:80-96 | when every word is flagged, the errors are the words, one for one, in word order |
| Assessment.ErrorsOfAppend | app/service/azure_service.py:80-96 | the errors of two runs of words are the errors of the first followed by those of the second (word order is kept) |
| Assessment.DefaultsAreNotErrors | app/service/azure_service.py:84-87 | a word with no assessment, or with no score and no type, is not an error; neither is exactly 60 with "None"; 59.5 is, and so is any other error type |
| Assessment.WordsOf | app/service/azure_service.py:77-78 | the words are `NBest[0]["Words"]` (default `[]`), and `[]` when `NBest` is missing or empty |
| Assessment.WordsOnlyFromFirst | app/service/azure_service.py:77-78 | hypotheses after the first never change the words |
| Assessment.NoHypothesisNoErrors | app/service/azure_service.py:77-78 | a recognition with a missing or empty `NBest`, or without `Words`, gives no words and no errors |
| Assessment.Assessed | app/service/azure_service.py:64-132 | both branches pass the sentence id, number and reference text through. A recognition keeps its text, its five scores, its words, the errors of those words and its payload. Any other outcome gives zero scores, no prosody, no words and no errors, an empty recognized text, and `{"error": message}` |
| Assessment.ExtractWords | app/service/azure_service.py:74-96 | the word loop returns the words unchanged and exactly `ErrorsOf` of them |
| Assessment.AssessPronunciation | app/service/azure_service.py:14-132 | the result is `Assessed` of the recognizer's outcome on that file and reference text |
| Feedback.BuildAzureSummary | app/service/gemini_service.py:36-46 | one summary entry per result, in order, with the result's text, recognized text and four scores; each error becomes its word, type and accuracy, one for one |
| Feedback.ExtractJsonBody | app/service/gemini_service.py:113-123 | the step-by-step fence stripping computes `JsonBody` |
| Feedback.JsonFencedBody | app/service/gemini_service.py:113-123 | if the stripped answer is "```json" + B + "```" and B does not start with "```", the parser gets strip(B) |
| Feedback.PlainFencedBody | app/service/gemini_service.py:113-123 | if the stripped answer is "```" + B + "```", with B at least 3 long and not starting with "json", the parser gets strip(B) |
| Feedback.UnfencedBody | app/service/gemini_service.py:113-123 | an answer with no fence at either end reaches the parser only stripped |
| Feedback.MeanPronunciation | app/service/gemini_service.py:130 | the mean is 0 for no results; otherwise the mean times the count is the sum of the pronunciation scores |
| Feedback.FallbackShape | app/service/gemini_service.py:127-143 | the fallback has the mean pronunciation score and 70 for vocabulary, grammar and fluency. Overall times 4 is pronunciation + 210, and it lies in 52.5..77.5 for scores in 0..100. Both remark maps have exactly the four categories, each with no remarks. Both error lists are empty and the comment is fixed |
| Feedback.FallbackForNoResults | app/service/gemini_service.py:130-137 | no results give pronunciation 0 and overall 52.5, with no division by zero |
| Feedback.FallbackExample | app/service/gemini_service.py:130-137 | scores 80, 60 and 100 give 80 and 72.5 |
| Feedback.ComprehensiveFeedback | app/service/gemini_service.py:101-143 | the result is the parse of the fence-stripped answer when the call and the parse both succeed, and the fallback otherwise |
| Feedback.GenerateComprehensiveFeedback | app/service/gemini_service.py:20-143 | the method builds the summary, calls the model and strips the answer; its result is `ComprehensiveFeedback` |
| Feedback.HistoryLines | app/service/gemini_service.py:160-163 | one line per recent message |
| Feedback.RecentIsLastFive | app/service/gemini_service.py:162 | `history[-5:]` keeps min(n, 5) messages, the last ones, in order |
| Feedback.LinePrefix | app/service/gemini_service.py:161 | a line starts with "User: " if and only if the role is "user", and with "Assistant: " otherwise |
| Feedback.NoneIsEmptyHistory | app/service/gemini_service.py:156-157 | a `None` history gives the same empty text as `[]` |
| Feedback.HistoryTextLines | app/service/gemini_service.py:160-163 | when no content holds a line break, the history text splits back into exactly the recent lines, in order |
| Feedback.ConversationResponse | app/service/gemini_service.py:145-183 | the reply is the stripped answer to the prompt built from the history text, or the fixed follow-up question when the call raises |
| Feedback.WelcomeMentionsTopic | app/service/gemini_service.py:195-198 | the prompt quotes the topic if and only if a non-empty topic is given; otherwise it is the generic prompt |
| Feedback.WelcomeMessage | app/service/gemini_service.py:185-209 | the welcome is the stripped answer, or the fixed greeting when the call raises |
| Paths.Name | app/service/conversation_service.py:350-351 | `Path(p).name` holds no `/` |
| Paths.DirName | app/service/conversation_service.py:350-351 | a path is its directory part, which ends in `/` when it is non-empty, followed by its name |
| Paths.StemSuffix | app/service/conversation_service.py:351 | a name is its stem followed by its suffix; a suffix holds exactly one dot, at its start |
| Paths.WithName | app/service/conversation_service.py:351 | `with_name` fails exactly when the path has an empty name or the new name is empty, `.` or holds a `/`; otherwise the new path keeps the directory and has the new name |
| Paths.AzureTargetIsNew | app/service/conversation_service.py:351 | `<stem>_azure.wav` sits in the input's directory and is never the input path itself |
| Paths.ConvertedAudioPath | app/service/conversation_service.py:338-385 | the result is `<dir>/<stem>_azure.wav` when ffmpeg exits with 0, and the original path for any other exit code, a missing ffmpeg, any other exception or a name `with_name` rejects; it never fails |
| Paths.WavTarget | app/service/polly_service.py:45-46 | a path whose suffix is not ".mp3" is kept |
| Paths.WavTargetRewrites | app/service/polly_service.py:45-46 | an ".mp3" path becomes, in the same directory and with the same stem, a ".wav" name; doing it again changes nothing |
| Paths.WavTargetKeepsWav | app/service/polly_service.py:45-46 | a ".wav" path is its own target |
| Speech.LittleEndianRoundTrip | app/service/polly_service.py:85-94 | reading back the little-endian bytes of a field gives its value |
| Speech.PcmHeaderReadsBack | app/service/polly_service.py:83-95 | any canonical PCM header reads back as consistent fields. These are the RIFF, WAVE, `fmt ` and data tags, Subchunk1Size 16, AudioFormat 1, ChunkSize 36 + data size, and the byte rate and block align derived from the format |
| Speech.PcmHeaderFields | app/service/polly_service.py:83-95 | a canonical header reads back, field by field, the values it was built from |
| Speech.DummyWavIsEmptyPcm | app/service/polly_service.py:83-95 | the placeholder is exactly the canonical 44-byte header of an empty 16-bit mono 44.1 kHz PCM file, so "RIFF" is at 0, "WAVE" at 8, "fmt " at 12 and "data" at 36 |
| Speech.DummyWavFields | app/service/polly_service.py:83-95 | the placeholder's fields are consistent: ChunkSize 36, Subchunk1Size 16, PCM, 1 channel, 44100 Hz, ByteRate 88200, BlockAlign 2, 16 bits, Subchunk2Size 0 |
| Speech.SpeechFile | app/service/polly_service.py:24-75 | an unavailable service gives the placeholder at the requested path; a completed synthesis gives its audio at the ".wav" target, which is returned; a cancellation, an unexpected reason or an exception gives the placeholder at the ORIGINAL path |
| Speech.FallbackKeepsOriginalPath | app/service/polly_service.py:63-75 | a failed ".mp3" request writes the placeholder at the original ".mp3" path, which differs from the ".wav" path a success would use |
| Speech.WavRequestKeepsPath | app/service/polly_service.py:45-46 | a ".wav" request is written at the requested path whatever the outcome |
| Speech.FileStore.Write | app/service/polly_service.py:97-98 | writing replaces the bytes at that path and nothing else |
| Speech.SpeechSynthesizer.CreateDummyFile | app/service/polly_service.py:77-101 | the placeholder is written at the given path, and that path is returned |
| Speech.SpeechSynthesizer.TextToSpeech | app/service/polly_service.py:24-75 | one file written and its path returned: the placeholder at the requested path when unavailable, the audio at the ".wav" target when synthesis completed, the placeholder at the original path on cancellation, an unexpected reason or an exception |
| Store.ErrorRowsFollowAllErrors | app/service/conversation_service.py:158-181 | the error rows are, one for one and in order, the flattened word errors, each with the turn and the user |
| Store.ErrorRowsNameTheirSentence | app/service/conversation_service.py:159-181 | each error row names the sentence of the result its error came from |
| Store.AllErrorsAppend | app/service/conversation_service.py:327 | flattening two runs of results gives the first run's errors followed by the second's |
| Store.GrammarRowOf | app/service/conversation_service.py:238-256 | the type column differs from the rule column if and only if "rule_violated" is missing, in which case they are "unknown" and "" |
| Store.VocabularyDefaults | app/service/conversation_service.py:218-236 | a vocabulary row has type "word_choice" and the whole user text as context; a missing key reads as "" |
| Store.TurnsOfMembership | app/service/conversation_service.py:429-439 | a turn is selected if and only if it is in the table and belongs to the conversation |
| Store.SortByTurnNumber | app/service/conversation_service.py:435 | `ORDER BY` keeps the length and the multiset of rows |
| Store.SortIsSorted | app/service/conversation_service.py:435 | the sorted rows are in non-decreasing turn number |
| Store.HistoryRowsAreFirstTen | app/service/conversation_service.py:429-440 | the history rows are min(count, 10) turns of the conversation, sorted, and the ten with the LOWEST turn numbers: any turn left out numbers no lower than each row kept |
| Store.FirstUserId | app/service/conversation_service.py:417-425 | `None` if and only if no conversation row matches; otherwise the user of a matching row |
| Store.Db.UserIdOf | app/service/conversation_service.py:417-425 | the query returns the user of the conversation, or `None` when there is no such row |
| Store.Db.constructor | app/database.py:9-11 | the model's assumed starting state: every table empty, and the store consistent (the source only keeps a connection string) |
| Store.Db.InsertConversation | app/service/conversation_service.py:54-61 | one conversation row appended |
| Store.Db.InsertTurn | app/service/conversation_service.py:123-130 | one turn row appended |
| Store.Db.InsertSentence | app/service/conversation_service.py:134-155 | one sentence row appended |
| Store.Db.InsertPronunciationError | app/service/conversation_service.py:161-181 | one word-error row appended |
| Store.Db.InsertFeedback | app/service/conversation_service.py:193-215 | one feedback row appended |
| Store.Db.InsertVocabularyError | app/service/conversation_service.py:219-236 | one vocabulary-error row appended |
| Store.Db.InsertGrammarError | app/service/conversation_service.py:239-256 | one grammar-error row appended |
| Store.Db.SetLlmResponse | app/service/conversation_service.py:279-283 | the reply is set on the turn's row and on no other |
| Store.Db.CountTurn | app/service/conversation_service.py:286-290 | `total_turns` is raised by one on the conversation's row |
| Store.Db.Complete | app/service/conversation_service.py:472-476 | the conversation is marked completed, with its end time |
| Store.WithLlmResponse | app/service/conversation_service.py:279-283 | only the rows with that turn id change, and only in `llm_response` |
| Store.LlmResponseKeepsCounts | app/service/conversation_service.py:279-283 | setting a reply never changes any conversation's number of turns |
| Store.LlmResponseOnNewTurn | app/service/conversation_service.py:279-283 | setting the reply of the just-inserted turn rewrites that row alone |
| Store.WithTurnCounted | app/service/conversation_service.py:286-290 | only `total_turns` changes, by exactly 1 on the conversation's row and by 0 elsewhere |
| Store.CountAppend | app/service/conversation_service.py:123-130 | an inserted turn adds one to its own conversation's count and nothing to any other |
| Store.MarkedCompleted | app/service/conversation_service.py:472-476 | the conversation's row becomes "completed" with its end time, and only `status` and `ended_at` change on it (id, user, topic, start time and turn count kept); other rows are unchanged |
| Conversation.SpokenAtRequestedPath | app/service/conversation_service.py:67-72 | a `<id>_….wav` file requested in the audio directory is written at exactly that path, whatever the synthesizer does, and its name is the one the URL uses |
| Conversation.TurnFilesDistinct | app/service/conversation_service.py:260-274 | `<turn_id>_feedback.wav` and `<turn_id>_response.wav` are different files |
| Conversation.AssessAll | app/service/conversation_service.py:387-415 | one result per sentence; result i is for sentence i, numbered i + 1, with the i-th fresh id |
| Conversation.AssessAllAt | app/service/conversation_service.py:400-411 | result i is the assessment of sentence i against the same audio file |
| Conversation.ParallelAzureAssessment | app/service/conversation_service.py:387-415 | the gathered results come in task-creation order: result i is the assessment of sentence i, numbered i + 1, whatever the completion order |
| Conversation.AssessTurn | app/service/conversation_service.py:110-120 | the assessments are those of the transcript's sentences against the converted file |
| Conversation.MessagesOf | app/service/conversation_service.py:443-446 | a row gives its user message, then an assistant message if and only if its reply is a non-empty string |
| Conversation.HistoryShape | app/service/conversation_service.py:442-448 | the history has one message per row plus one per answered row, and its user messages are the rows' texts in row order |
| Conversation.BuildHistory | app/service/conversation_service.py:442-448 | the append loop builds `HistoryOf` the rows |
| Conversation.FeedbackTextOf | app/service/conversation_service.py:450-457 | the spoken feedback starts with "Overall score: " and ends with the overall comment |
| Conversation.FeedbackTextIgnoresFluency | app/service/conversation_service.py:450-457 | the fluency score never changes the spoken feedback |
| Conversation.GenerateFeedbackText | app/service/conversation_service.py:450-457 | the `+=` accumulation computes `FeedbackTextOf` |
| Conversation.SummaryTextAsWritten | app/service/conversation_service.py:509-510 | the summary as written fails if and only if the overall average is NULL |
| Conversation.EndingWithoutTurnsFails | app/service/conversation_service.py:509-510 | ending a conversation with no turns hits that failure |
| Conversation.SummaryText | app/service/conversation_service.py:509-510 | the summary starts with the fixed lead and ends with "Keep practicing!"; whenever the code as written succeeds it gives the same text |
| Conversation.AverageScores | app/service/conversation_service.py:517-522 | exactly the four score keys; each is its average, or 0 when that average is NULL |
| Conversation.TurnFeedbackOf | app/service/conversation_service.py:305-330 | the ids, the five scores, the comment, the remarks and the vocabulary and grammar errors are the feedback record's; score i carries result i's sentence id, number, text and four scores; the pronunciation errors are every result's errors flattened in sentence order |
| Conversation.ResponseErrorsAreStoredErrors | app/service/conversation_service.py:327 | the errors reported in the response are exactly the stored error rows' errors, one for one and in order |
| Conversation.HistoryOfAppend | app/service/conversation_service.py:442-448 | the history of two runs of rows is the first run's followed by the second's |
| Conversation.HistoryOfAround | app/service/conversation_service.py:442-448 | a row's messages sit between those of the rows before and after it |
| Conversation.CurrentTurnUnanswered | app/service/conversation_service.py:123-130 | while the conversation has fewer than ten other turns, the turn being processed is among the history rows read, where it gives a user message with its text and no assistant message |
| Conversation.ValidAfterTurn | app/service/conversation_service.py:279-290 | a turn appended, then answered, then counted, leaves every conversation's `total_turns` equal to its number of turns |
| Conversation.ConversationService.constructor | app/service/conversation_service.py:34-37 | the service keeps its audio directory, store, file store and synthesizer |
| Conversation.ConversationService.StartConversation | app/service/conversation_service.py:39-79 | one active conversation row with no turns is appended. The welcome is spoken into `<id>_welcome.wav` in the audio directory. The response carries the welcome text and that file's URL |
| Conversation.ConversationService.InsertSentences | app/service/conversation_service.py:133-155 | one sentence row per result, in order, and nothing else |
| Conversation.ConversationService.InsertPronunciationErrors | app/service/conversation_service.py:157-181 | one word-error row per error of each result, in order, and nothing else |
| Conversation.ConversationService.InsertErrorsOf | app/service/conversation_service.py:160-181 | one row per word error of one result, in order |
| Conversation.ConversationService.InsertVocabularyErrors | app/service/conversation_service.py:218-236 | one vocabulary row per entry, in order |
| Conversation.ConversationService.InsertGrammarErrors | app/service/conversation_service.py:238-256 | one grammar row per entry, in order |
| Conversation.ConversationService.ProcessTurn | app/service/conversation_service.py:81-336 | a failed transcription of the ORIGINAL file is returned before any table, or any file the model tracks, is written; the converted file ffmpeg has already written is not modelled. Otherwise the turn is recorded against the CONVERTED file's assessments, as `TurnRecorded` states |
| Conversation.ConversationService.RecordTranscript | app/service/conversation_service.py:110-336 | the turn adds exactly its rows, answers and counts the turn, speaks the two files, and returns the response reporting them. The rows are one turn, a sentence row per result, an error row per word error, one feedback row, and a row per vocabulary and grammar error. The user id on the error rows is the one read before they are inserted. The reply comes from the history read after the turn row is in |
| Conversation.ConversationService.RecordAssessments | app/service/conversation_service.py:122-181 | the turn row, then the sentence rows, then the word-error rows tagged with the conversation's user; other tables and files unchanged |
| Conversation.ConversationService.RecordFeedback | app/service/conversation_service.py:191-256 | the feedback row, then the vocabulary and grammar rows; other tables and files unchanged |
| Conversation.ConversationService.Respond | app/service/conversation_service.py:258-290 | the feedback and the reply are spoken, and the reply is the one generated from the history with this turn unanswered; the reply is stored and the turn counted, and the store is consistent again |
| Conversation.ConversationService.Reply | app/service/conversation_service.py:264-271 | the reply generated from the current history; nothing is written |
| Conversation.ConversationService.SpeakInto | app/service/conversation_service.py:258-262 | one file written, at `<audio dir>/<id><tail>`; the tables unchanged |
| Conversation.ConversationService.CloseTurn | app/service/conversation_service.py:278-290 | the reply set on the new turn row and the conversation counted; the store is consistent again |
| Conversation.ConversationService.EndConversation | app/service/conversation_service.py:459-528 | the conversation is marked completed and the store stays consistent. The response carries the count, the summary, the averages with NULL read as 0, and the error counts |
| Conversation.ConversationService.EndConversationAsWritten | app/service/conversation_service.py:459-528 | the conversation is marked completed first; the call then fails if and only if the overall average is NULL, and otherwise returns what `EndConversation` returns |
| Conversation.ConversationService.GetConversationHistory | app/service/conversation_service.py:427-448 | the messages of the first ten turns by turn number; nothing is written |

## Left out

- Speech recognition is not modelled. This covers Whisper model loading, `transcribe` and its `strip` (app/service/whisper_service.py:18-45). The transcript, or the exception, is an input.
- The assessment SDK calls are not modelled: speech config, recognizer, `recognize_once` and `PronunciationAssessmentResult`. A recognition outcome is an input: a payload, another reason, or an exception.
- The language-model calls are not modelled, and neither is `_extract_response_text` (app/service/gemini_service.py:211-249). The answer is an input, `None` when the call raises.
- The feedback prompt's template text and its `json.dumps` rendering are not modelled. The prompt is a value holding the user text and the summary.
- `json.loads` and pydantic validation are not modelled. Both together are one abstract parse returning `Option`.
- `json.dumps` of the raw data, strengths and improvements into columns is not modelled. Rows keep the values.
- Speech synthesis is not modelled. It is an abstract outcome carrying the audio bytes on success.
- `mkdir` of the parent directories is not modelled, and neither are files left partly written by a failed synthesis.
- The ffmpeg subprocess is not modelled. Only its outcome is an input: an exit code, not found, or another exception. Neither are the bytes of the converted file, which ffmpeg writes into the audio directory before transcription.
- Concurrency is not modelled: the thread pool, `asyncio.gather` and `to_thread`. Dispatch is a sequential map that keeps order.
- SQL is not modelled as queries. The aggregates of `end_conversation` (COUNT, AVG, the error counts) are inputs. Transactions, commits, foreign keys and the column default of `total_turns` are not modelled either.
- Conversation.ConversationService.EndConversation: returns the corrected summary (a NULL overall average reads as 0); the raising behaviour of the code as written is `EndConversationAsWritten`.
- Conversation.ConversationService.StartConversation: the new row's `total_turns` is 0, where the database supplies its column default.
- Ties in turn number may come back from `ORDER BY turn_number` in any order. The model keeps insertion order for them.
- Python float formatting (`:.0f`, `:.1f`) is not modelled. The formatters are functions handed in.
- `uuid4()` and `datetime.now()` are parameters.
- Logging through `print` is not modelled.
- `Path` normalisation is not modelled: repeated or trailing separators, `.` and `..`. Paths are strings split at their last `/`.
- The HTTP controller, the application setup, configuration, the database connection and the SDK demo scripts are not part of this model.

## Findings

| source | as written | input that shows it | evidently intended | confidence | as-written member | corrected member |
|---|---|---|---|---|---|---|
| app/service/conversation_service.py:509-510 | the summary formats `stats['avg_overall']` with `:.1f` | a conversation ended with no turns: the LEFT JOIN aggregate has AVG = NULL, so formatting `None` raises `TypeError` after the status update has been committed | a missing average reads as 0, as lines 517-522 already read it | not executed | Conversation.SummaryTextAsWritten (Conversation.EndingWithoutTurnsFails, Conversation.ConversationService.EndConversationAsWritten) | Conversation.SummaryText (Conversation.ConversationService.EndConversation) |
