/** The sentence segmenter of the transcription service
    (app/service/whisper_service.py, `split_into_sentences`): split at runs of
    `.`, `!` and `?` as `re.split(r'[.!?]+', text)` does, strip every piece and
    drop the blank ones. */
module Segmenter {
  import opened Text

  predicate IsTerminal(c: char) {
    c == '.' || c == '!' || c == '?'
  }

  predicate NoTerminal(s: string) {
    forall i :: 0 <= i < |s| ==> !IsTerminal(s[i])
  }

  predicate AllTerminal(s: string) {
    forall i :: 0 <= i < |s| ==> IsTerminal(s[i])
  }

  /** First index at or after `from` holding a terminal mark, or `|s|`. */
  function NextTerminal(s: string, from: nat): (i: nat)
    requires from <= |s|
    ensures from <= i <= |s|
    ensures forall k :: from <= k < i ==> !IsTerminal(s[k])
    ensures i < |s| ==> IsTerminal(s[i])
    decreases |s| - from
  {
    if from == |s| || IsTerminal(s[from]) then from else NextTerminal(s, from + 1)
  }

  /** End of the run of terminal marks that starts at `from`. */
  function RunEnd(s: string, from: nat): (j: nat)
    requires from <= |s|
    ensures from <= j <= |s|
    ensures forall k :: from <= k < j ==> IsTerminal(s[k])
    ensures j < |s| ==> !IsTerminal(s[j])
    decreases |s| - from
  {
    if from < |s| && IsTerminal(s[from]) then RunEnd(s, from + 1) else from
  }

  /** The pieces `re.split(r'[.!?]+', s[from..])` returns: never none, and
      none of them holds a terminal mark. */
  function SplitFrom(s: string, from: nat): (pieces: seq<string>)
    requires from <= |s|
    ensures |pieces| >= 1
    ensures forall k :: 0 <= k < |pieces| ==> NoTerminal(pieces[k])
    decreases |s| - from
  {
    var i := NextTerminal(s, from);
    if i == |s| then [s[from..]] else [s[from..i]] + SplitFrom(s, RunEnd(s, i))
  }

  /** The runs of terminal marks `re.split` cuts out of `s[from..]`, in
      order: each one non-empty, and one fewer than the pieces. */
  function SeparatorsFrom(s: string, from: nat): (seps: seq<string>)
    requires from <= |s|
    ensures |seps| + 1 == |SplitFrom(s, from)|
    ensures forall k :: 0 <= k < |seps| ==> seps[k] != [] && AllTerminal(seps[k])
    decreases |s| - from
  {
    var i := NextTerminal(s, from);
    if i == |s| then [] else [s[i..RunEnd(s, i)]] + SeparatorsFrom(s, RunEnd(s, i))
  }

  /** `re.split(r'[.!?]+', s)` */
  function RegexSplit(s: string): seq<string> {
    SplitFrom(s, 0)
  }

  /** `p0 + s0 + p1 + s1 + ... + pn`: the text the split came from. */
  function Interleave(pieces: seq<string>, seps: seq<string>): string
    requires |pieces| == |seps| + 1
  {
    if seps == [] then pieces[0] else pieces[0] + seps[0] + Interleave(pieces[1..], seps[1..])
  }

  lemma {:induction false} SplitFromRejoins(s: string, from: nat)
    requires from <= |s|
    ensures Interleave(SplitFrom(s, from), SeparatorsFrom(s, from)) == s[from..]
    decreases |s| - from
  {
    var i := NextTerminal(s, from);
    if i == |s| {
      assert SplitFrom(s, from) == [s[from..]] && SeparatorsFrom(s, from) == [];
    } else {
      var j := RunEnd(s, i);
      var pieces, seps := SplitFrom(s, j), SeparatorsFrom(s, j);
      calc {
        Interleave(SplitFrom(s, from), SeparatorsFrom(s, from));
        Interleave([s[from..i]] + pieces, [s[i..j]] + seps);
        { InterleaveCons(s[from..i], s[i..j], pieces, seps); }
        s[from..i] + s[i..j] + Interleave(pieces, seps);
        { SplitFromRejoins(s, j); }
        s[from..i] + s[i..j] + s[j..];
        { SliceConcat(s, from, i, j); }
        s[from..];
      }
    }
  }

  lemma SliceConcat(s: string, a: nat, b: nat, c: nat)
    requires a <= b <= c <= |s|
    ensures s[a..b] + s[b..c] + s[c..] == s[a..]
  {
  }

  /** Interleaving with one more piece and separator in front. */
  lemma InterleaveCons(piece: string, sep: string, pieces: seq<string>, seps: seq<string>)
    requires |pieces| == |seps| + 1
    ensures Interleave([piece] + pieces, [sep] + seps) == piece + sep + Interleave(pieces, seps)
  {
    assert ([piece] + pieces)[1..] == pieces;
    assert ([sep] + seps)[1..] == seps;
  }

  /** Putting the cut-out runs back between the pieces gives `s` again. */
  lemma RegexSplitRejoins(s: string)
    ensures Interleave(RegexSplit(s), SeparatorsFrom(s, 0)) == s
  {
    SplitFromRejoins(s, 0);
  }

  /** `[p.strip() for p in pieces if p.strip()]` */
  function Clean(pieces: seq<string>): (r: seq<string>)
    ensures |r| <= |pieces|
    ensures forall k :: 0 <= k < |r| ==> r[k] != [] && Trimmed(r[k])
  {
    if pieces == [] then []
    else
      var s := Strip(pieces[0]);
      (if s != [] then [s] else []) + Clean(pieces[1..])
  }

  lemma {:induction false} CleanKeepsNoTerminal(pieces: seq<string>)
    requires forall k :: 0 <= k < |pieces| ==> NoTerminal(pieces[k])
    ensures forall k :: 0 <= k < |Clean(pieces)| ==> NoTerminal(Clean(pieces)[k])
  {
    if pieces != [] {
      CleanKeepsNoTerminal(pieces[1..]);
      var p := pieces[0];
      var s := Strip(p);
      var a := LeadingSpace(p);
      forall i | 0 <= i < |s| ensures !IsTerminal(s[i]) {
        assert s[i] == p[a + i];
      }
    }
  }

  /** One step of the comprehension: what the first piece gives, then the
      rest. */
  lemma CleanCons(p: string, rest: seq<string>)
    ensures Clean([p]) == (if Strip(p) != [] then [Strip(p)] else [])
    ensures Clean([p] + rest) == Clean([p]) + Clean(rest)
  {
    assert ([p] + rest)[0] == p && ([p] + rest)[1..] == rest;
    assert [p][1..] == [];
  }

  /** The comprehension distributes over concatenation: pieces are kept in
      the order they come. */
  lemma {:induction false} CleanAppend(a: seq<string>, b: seq<string>)
    ensures Clean(a + b) == Clean(a) + Clean(b)
  {
    if a == [] {
      assert a + b == b;
    } else {
      var p, a' := a[0], a[1..];
      ConsAppend(a, b);
      CleanCons(p, a' + b);
      CleanAppend(a', b);
      CleanCons(p, a');
      AppendAssoc(Clean([p]), Clean(a'), Clean(b));
    }
  }

  /** A non-empty `a` is its head followed by its tail, also in front of `b`. */
  lemma ConsAppend<T>(a: seq<T>, b: seq<T>)
    requires a != []
    ensures a == [a[0]] + a[1..] && a + b == [a[0]] + (a[1..] + b)
  {
  }

  lemma AppendAssoc<T>(x: seq<T>, y: seq<T>, z: seq<T>)
    ensures x + (y + z) == x + y + z
  {
  }

  /** Every piece that is not blank once stripped is kept, stripped, right
      after the ones kept from the pieces before it. */
  lemma CleanKeeps(pieces: seq<string>, k: nat)
    requires k < |pieces| && Strip(pieces[k]) != []
    ensures |Clean(pieces[..k])| < |Clean(pieces)|
    ensures Clean(pieces)[|Clean(pieces[..k])|] == Strip(pieces[k])
  {
    var p := pieces[k];
    var pre, post := SplitAround(pieces, k);
    CleanAppend(pre + [p], post);
    CleanAppend(pre, [p]);
    CleanCons(p, []);
    assert Clean(pieces) == Clean(pre) + [Strip(p)] + Clean(post);
  }

  /** The elements before and after index i. */
  lemma SplitAround<T>(s: seq<T>, i: nat) returns (pre: seq<T>, post: seq<T>)
    requires i < |s|
    ensures s == pre + [s[i]] + post && pre == s[..i]
  {
    pre, post := s[..i], s[i + 1..];
    assert s == pre + [s[i]] + post;
  }

  /** A string is kept if and only if it is non-empty and is some piece,
      stripped. */
  lemma {:induction false} CleanMembership(pieces: seq<string>, x: string)
    ensures x in Clean(pieces) <==> x != [] && exists k :: 0 <= k < |pieces| && Strip(pieces[k]) == x
  {
    if pieces != [] {
      CleanMembership(pieces[1..], x);
      if exists k :: 0 <= k < |pieces| && Strip(pieces[k]) == x {
        var k :| 0 <= k < |pieces| && Strip(pieces[k]) == x;
        if k > 0 { assert pieces[1..][k - 1] == pieces[k]; }
      }
      if exists k :: 0 <= k < |pieces[1..]| && Strip(pieces[1..][k]) == x {
        var k :| 0 <= k < |pieces[1..]| && Strip(pieces[1..][k]) == x;
        assert pieces[k + 1] == pieces[1..][k];
      }
    }
  }

  /** The sentences of `s[from..]`. */
  function SentencesFrom(s: string, from: nat): (sentences: seq<string>)
    requires from <= |s|
    ensures forall k :: 0 <= k < |sentences| ==>
      sentences[k] != [] && Trimmed(sentences[k]) && NoTerminal(sentences[k])
  {
    CleanKeepsNoTerminal(SplitFrom(s, from));
    Clean(SplitFrom(s, from))
  }

  /** The segmenter: every sentence is non-empty, already stripped, and holds
      no terminal mark. */
  function SplitIntoSentences(text: string): (sentences: seq<string>)
    ensures forall k :: 0 <= k < |sentences| ==>
      sentences[k] != [] && Trimmed(sentences[k]) && NoTerminal(sentences[k])
  {
    SentencesFrom(text, 0)
  }

  /** Nothing printable is lost: every piece between terminal runs that is
      not blank is returned, stripped, after the sentences of the pieces
      before it. */
  lemma SentencesKeepPieces(text: string, k: nat)
    requires k < |RegexSplit(text)| && Strip(RegexSplit(text)[k]) != []
    ensures |Clean(RegexSplit(text)[..k])| < |SplitIntoSentences(text)|
    ensures SplitIntoSentences(text)[|Clean(RegexSplit(text)[..k])|] == Strip(RegexSplit(text)[k])
  {
    CleanKeeps(RegexSplit(text), k);
  }

  /** The sentences are exactly the non-blank pieces of the split, stripped. */
  lemma SentencesAreStrippedPieces(text: string, x: string)
    ensures x in SplitIntoSentences(text) <==>
      x != [] && exists k :: 0 <= k < |RegexSplit(text)| && Strip(RegexSplit(text)[k]) == x
  {
    CleanMembership(RegexSplit(text), x);
  }

  /** A text without terminal marks is a single piece. */
  lemma RegexSplitNoTerminal(s: string)
    requires NoTerminal(s)
    ensures RegexSplit(s) == [s]
  {
    assert NextTerminal(s, 0) == |s|;
  }

  /** Empty or whitespace-only text has no sentences. */
  lemma BlankHasNoSentences(text: string)
    requires AllSpace(text)
    ensures SplitIntoSentences(text) == []
  {
    assert NoTerminal(text) by {
      forall i | 0 <= i < |text| ensures !IsTerminal(text[i]) {
        assert IsSpace(text[i]);
      }
    }
    RegexSplitNoTerminal(text);
  }

  /** Non-blank text without terminal marks is one sentence: the stripped text. */
  lemma UnpunctuatedIsOneSentence(text: string)
    requires NoTerminal(text) && !AllSpace(text)
    ensures SplitIntoSentences(text) == [Strip(text)]
  {
    RegexSplitNoTerminal(text);
  }

  /** Splitting any returned sentence again gives exactly that sentence. */
  lemma SplitIdempotent(text: string)
    ensures forall k :: 0 <= k < |SplitIntoSentences(text)| ==>
      SplitIntoSentences(SplitIntoSentences(text)[k]) == [SplitIntoSentences(text)[k]]
  {
    var ss := SplitIntoSentences(text);
    forall k | 0 <= k < |ss| ensures SplitIntoSentences(ss[k]) == [ss[k]] {
      assert !AllSpace(ss[k]) by { assert !IsSpace(ss[k][0]); }
      UnpunctuatedIsOneSentence(ss[k]);
      StripTrimmed(ss[k]);
    }
  }

  /** `s` is `text[a..b]`, and starts at or after `from`. */
  ghost predicate OccursAt(text: string, from: nat, a: nat, b: nat, s: string) {
    from <= a <= b <= |text| && text[a..b] == s
  }

  /** `segs` occur in `text` at or after `from`, one after another, left to
      right, without overlap. */
  ghost predicate OccurInOrderFrom(segs: seq<string>, text: string, from: nat)
    decreases |segs|
  {
    segs == [] ||
    exists a: nat, b: nat {:trigger OccursAt(text, from, a, b, segs[0])} ::
      OccursAt(text, from, a, b, segs[0]) && OccurInOrderFrom(segs[1..], text, b)
  }

  lemma OccurInOrderWeaken(segs: seq<string>, text: string, from: nat, from': nat)
    requires from' <= from && OccurInOrderFrom(segs, text, from)
    ensures OccurInOrderFrom(segs, text, from')
  {
    if segs != [] {
      var a: nat, b: nat :| OccursAt(text, from, a, b, segs[0]) && OccurInOrderFrom(segs[1..], text, b);
      assert OccursAt(text, from', a, b, segs[0]);
    }
  }

  /** What the piece `s[from..i]` adds to the sentences: itself, stripped, unless blank. */
  function Kept(s: string, from: nat, i: nat): seq<string>
    requires from <= i <= |s|
  {
    var t := Strip(s[from..i]);
    if t != [] then [t] else []
  }

  /** One step of the segmenter: the first piece, cleaned, then the rest. */
  lemma SentencesUnfold(s: string, from: nat)
    requires from <= |s| && NextTerminal(s, from) < |s|
    ensures SentencesFrom(s, from) ==
      Kept(s, from, NextTerminal(s, from)) + SentencesFrom(s, RunEnd(s, NextTerminal(s, from)))
  {
    var pieces := SplitFrom(s, from);
    assert pieces[1..] == SplitFrom(s, RunEnd(s, NextTerminal(s, from)));
  }

  /** The last step: a piece with no terminal mark after it. */
  lemma SentencesLast(s: string, from: nat)
    requires from <= |s| && NextTerminal(s, from) == |s|
    ensures SentencesFrom(s, from) == Kept(s, from, |s|)
  {
    var pieces := SplitFrom(s, from);
    assert s[from..] == s[from..|s|];
    assert pieces == [s[from..]];
    assert pieces[1..] == [];
  }

  /** Where the stripped piece `s[from..i]` sits in `s`. */
  lemma StrippedPieceAt(s: string, from: nat, i: nat) returns (a: nat, t: string)
    requires from <= i <= |s|
    ensures t == Strip(s[from..i])
    ensures OccursAt(s, from, from + a, from + a + |t|, t) && from + a + |t| <= i
  {
    var p := s[from..i];
    t := Strip(p);
    a := LeadingSpace(p);
    InfixOfSlice(s, from, i, a, t);
  }

  lemma InfixOfSlice(s: string, from: nat, i: nat, a: nat, t: string)
    requires from <= i <= |s| && a + |t| <= i - from && t == s[from..i][a..a + |t|]
    ensures s[from + a..from + a + |t|] == t
  {
    forall k | 0 <= k < |t| ensures t[k] == s[from + a + k] {
      assert t[k] == s[from..i][a + k];
    }
  }

  /** The kept first piece comes before what follows it. */
  lemma KeptOccurs(s: string, from: nat, i: nat, tail: seq<string>)
    requires from <= i <= |s|
    requires OccurInOrderFrom(tail, s, i)
    ensures OccurInOrderFrom(Kept(s, from, i) + tail, s, from)
  {
    var a, t := StrippedPieceAt(s, from, i);
    if t == [] {
      assert Kept(s, from, i) + tail == tail;
      OccurInOrderWeaken(tail, s, i, from);
    } else {
      OccurInOrderWeaken(tail, s, i, from + a + |t|);
      var segs := [t] + tail;
      assert segs[0] == t && segs[1..] == tail;
      assert OccursAt(s, from, from + a, from + a + |t|, segs[0]);
    }
  }

  lemma {:induction false} SentencesOccurFrom(s: string, from: nat)
    requires from <= |s|
    ensures OccurInOrderFrom(SentencesFrom(s, from), s, from)
    decreases |s| - from
  {
    var i := NextTerminal(s, from);
    if i == |s| {
      SentencesLast(s, from);
      KeptOccurs(s, from, i, []);
      assert Kept(s, from, i) + [] == Kept(s, from, i);
    } else {
      var j := RunEnd(s, i);
      SentencesOccurFrom(s, j);
      SentencesUnfold(s, from);
      OccurInOrderWeaken(SentencesFrom(s, j), s, j, i);
      KeptOccurs(s, from, i, SentencesFrom(s, j));
    }
  }

  /** The sentences are infixes of the text, in left-to-right order. */
  lemma SentencesOccurInOrder(text: string)
    ensures OccurInOrderFrom(SplitIntoSentences(text), text, 0)
  {
    SentencesOccurFrom(text, 0);
  }

  /** `NextTerminal` is pinned down by its postcondition. */
  lemma NextTerminalAt(s: string, from: nat, i: nat)
    requires from <= i <= |s|
    requires forall k :: from <= k < i ==> !IsTerminal(s[k])
    requires i < |s| ==> IsTerminal(s[i])
    ensures NextTerminal(s, from) == i
  {
  }

  /** `RunEnd` is pinned down by its postcondition. */
  lemma RunEndAt(s: string, from: nat, j: nat)
    requires from <= j <= |s|
    requires forall k :: from <= k < j ==> IsTerminal(s[k])
    requires j < |s| ==> !IsTerminal(s[j])
    ensures RunEnd(s, from) == j
  {
  }

  const Greeting := "Hello. How are you?"

  lemma GreetingTail()
    ensures SentencesFrom(Greeting, 19) == []
  {
    NextTerminalAt(Greeting, 19, 19);
    SentencesLast(Greeting, 19);
    assert Greeting[19..19] == "";
  }

  lemma GreetingSecondStep()
    ensures SentencesFrom(Greeting, 6) == Kept(Greeting, 6, 18) + SentencesFrom(Greeting, 19)
  {
    NextTerminalAt(Greeting, 6, 18);
    RunEndAt(Greeting, 18, 19);
    SentencesUnfold(Greeting, 6);
  }

  lemma GreetingSecondPiece()
    ensures Kept(Greeting, 6, 18) == ["How are you"]
  {
    assert Greeting[6..18] == " How are you";
    StripBetween(" How are you", 1, 12);
    assert " How are you"[1..12] == "How are you";
  }

  lemma GreetingFirstStep()
    ensures SentencesFrom(Greeting, 0) == Kept(Greeting, 0, 5) + SentencesFrom(Greeting, 6)
  {
    NextTerminalAt(Greeting, 0, 5);
    RunEndAt(Greeting, 5, 6);
    SentencesUnfold(Greeting, 0);
  }

  lemma GreetingFirstPiece()
    ensures Kept(Greeting, 0, 5) == ["Hello"]
  {
    assert Greeting[0..5] == "Hello";
    StripTrimmed("Hello");
  }

  /** "Hello. How are you?" gives ["Hello", "How are you"]. */
  lemma SplitExample()
    ensures SplitIntoSentences(Greeting) == ["Hello", "How are you"]
  {
    GreetingTail();
    GreetingSecondStep();
    GreetingSecondPiece();
    GreetingFirstStep();
    GreetingFirstPiece();
  }
}
