/** The slice of `pathlib` the pipeline uses to name audio files: the last
    path component, its suffix and stem, `with_name`, and the two renamings
    built on them (`with_suffix` is the ".mp3" rewrite). Paths are plain strings with `/` as
    separator; no normalisation is modelled. */
module Paths {
  import opened Wrappers
  import opened Text

  /** Index of the last `c` in `s`, or -1 when there is none. */
  function LastIndexOf(s: string, c: char): (i: int)
    ensures -1 <= i < |s|
    ensures i >= 0 ==> s[i] == c
    ensures forall k :: i < k < |s| ==> s[k] != c
  {
    if s == [] then -1
    else if s[|s| - 1] == c then |s| - 1
    else LastIndexOf(s[..|s| - 1], c)
  }

  /** Everything up to and including the last `/` (empty for a bare name). */
  function Dir(p: string): string {
    p[..LastIndexOf(p, '/') + 1]
  }

  /** `Path(p).name`: the last component. */
  function Name(p: string): (n: string)
    ensures Excludes(n, '/')
  {
    var i := LastIndexOf(p, '/') + 1;
    var n := p[i..];
    assert Excludes(n, '/') by {
      forall k | 0 <= k < |n|
        ensures n[k] != '/'
      {
        assert n[k] == p[i + k];
      }
    }
    n
  }

  /** A path is its directory part followed by its name. */
  lemma DirName(p: string)
    ensures Dir(p) + Name(p) == p
    ensures Dir(p) == [] || Dir(p)[|Dir(p)| - 1] == '/'
  {
  }

  /** Where a name's suffix starts, if it has one: the last dot, provided
      it is neither the first nor the last character. */
  predicate HasSuffix(name: string) {
    var i := LastIndexOf(name, '.');
    0 < i < |name| - 1
  }

  /** `Path(p).suffix` */
  function Suffix(p: string): (s: string)
    ensures s == [] || s[0] == '.'
  {
    var n := Name(p);
    if HasSuffix(n) then n[LastIndexOf(n, '.')..] else ""
  }

  /** `Path(p).stem` */
  function Stem(p: string): string {
    var n := Name(p);
    if HasSuffix(n) then n[..LastIndexOf(n, '.')] else n
  }

  /** The name is the stem followed by the suffix; a suffix holds exactly one dot. */
  lemma StemSuffix(p: string)
    ensures Stem(p) + Suffix(p) == Name(p)
    ensures Suffix(p) != [] ==> |Suffix(p)| >= 2 && Excludes(Suffix(p)[1..], '.')
  {
    var n := Name(p);
    if HasSuffix(n) {
      var i := LastIndexOf(n, '.');
      var s := Suffix(p);
      forall k | 0 <= k < |s| - 1 ensures s[1..][k] != '.' {
        assert s[1..][k] == n[i + 1 + k];
      }
    }
  }

  /** A name `with_name` accepts: non-empty, not ".", and one component. */
  predicate ValidName(name: string) {
    name != [] && name != "." && Excludes(name, '/')
  }

  /** `Path(p).with_name(name)`, which raises when the path has an empty
      name or the new name is not a single valid component. */
  function WithName(p: string, name: string): (r: Option<string>)
    ensures r.None? <==> Name(p) == [] || !ValidName(name)
    ensures r.Some? ==> Dir(r.value) == Dir(p) && Name(r.value) == name
  {
    if Name(p) == [] || !ValidName(name) then None
    else
      DirName(p);
      DirOfAppend(Dir(p), name);
      Some(Dir(p) + name)
  }

  /** The directory part of `d + n`, when `n` has no `/`, is `d`. */
  lemma DirOfAppend(d: string, n: string)
    requires d == [] || d[|d| - 1] == '/'
    requires Excludes(n, '/')
    ensures Dir(d + n) == d && Name(d + n) == n
  {
    var p := d + n;
    var i := LastIndexOf(p, '/');
    if d != [] {
      assert p[|d| - 1] == '/';
    }
    assert i == |d| - 1;
    assert p[..|d|] == d;
  }

  /** Renaming within the directory of `p`. */
  lemma RenameInDir(p: string, name: string)
    requires Excludes(name, '/')
    ensures Dir(Dir(p) + name) == Dir(p) && Name(Dir(p) + name) == name
  {
    DirName(p);
    DirOfAppend(Dir(p), name);
  }

  lemma StemHasNoSlash(p: string)
    ensures Excludes(Stem(p), '/')
    ensures HasSuffix(Name(p)) ==> Stem(p) != []
  {
    var n := Name(p);
    if HasSuffix(n) {
      var stem := Stem(p);
      assert stem == n[..LastIndexOf(n, '.')];
      assert forall k :: 0 <= k < |stem| ==> stem[k] == n[k];
    }
  }

  lemma AppendExcludes(a: string, b: string, c: char)
    requires Excludes(a, c) && Excludes(b, c)
    ensures Excludes(a + b, c)
  {
    assert forall k :: 0 <= k < |a + b| ==> (a + b)[k] == if k < |a| then a[k] else b[k - |a|];
  }

  /** A name ending in ".wav" after at least one other character has the
      suffix ".wav". */
  lemma WavSuffix(p: string)
    requires |Name(p)| > 4 && EndsWith(Name(p), ".wav")
    ensures Suffix(p) == ".wav"
  {
    var n := Name(p);
    assert n[|n| - 4..] == ".wav";
    assert n[|n| - 4] == '.' && n[|n| - 3] == 'w' && n[|n| - 2] == 'a' && n[|n| - 1] == 'v';
    assert LastIndexOf(n, '.') == |n| - 4;
  }

  /** The file the synthesizer writes for `p`: ".mp3" becomes ".wav", any
      other path is kept. */
  function WavTarget(p: string): (r: string)
    ensures Suffix(p) != ".mp3" ==> r == p
  {
    if Suffix(p) == ".mp3" then Dir(p) + (Stem(p) + ".wav") else p
  }

  /** An ".mp3" path is rewritten within its directory, with the same stem,
      to a ".wav" name; the rewrite is idempotent. */
  lemma WavTargetRewrites(p: string)
    requires Suffix(p) == ".mp3"
    ensures Dir(WavTarget(p)) == Dir(p) && Name(WavTarget(p)) == Stem(p) + ".wav"
    ensures Suffix(WavTarget(p)) == ".wav"
    ensures WavTarget(WavTarget(p)) == WavTarget(p)
  {
    var name := Stem(p) + ".wav";
    StemHasNoSlash(p);
    AppendExcludes(Stem(p), ".wav", '/');
    RenameInDir(p, name);
    assert name[|name| - 4..] == ".wav";
    WavSuffix(Dir(p) + name);
  }

  /** `WavTarget` is the identity on a path whose name ends in ".wav". */
  lemma WavTargetKeepsWav(p: string)
    requires |Name(p)| > 4 && EndsWith(Name(p), ".wav")
    ensures WavTarget(p) == p
  {
    WavSuffix(p);
  }

  /** The name ffmpeg writes to: `<stem>_azure.wav`. */
  function AzureName(p: string): string {
    Stem(p) + "_azure.wav"
  }

  /** `<dir>/<stem>_azure.wav`, the ffmpeg output for `p`. */
  function AzureTarget(p: string): string {
    Dir(p) + AzureName(p)
  }

  /** The converted file sits beside the input and is never the input itself. */
  lemma AzureTargetIsNew(p: string)
    ensures Dir(AzureTarget(p)) == Dir(p) && Name(AzureTarget(p)) == AzureName(p)
    ensures AzureTarget(p) != p
  {
    StemHasNoSlash(p);
    AppendExcludes(Stem(p), "_azure.wav", '/');
    RenameInDir(p, AzureName(p));
    DirName(p);
    StemSuffix(p);
    AzureNameDiffers(Dir(p), Stem(p), Suffix(p));
  }

  /** Past the same directory and stem, "_azure.wav" differs from an empty
      suffix by its length and from a dotted one by its first character. */
  lemma AzureNameDiffers(dir: string, stem: string, suffix: string)
    requires suffix == [] || suffix[0] == '.'
    ensures dir + (stem + "_azure.wav") != dir + (stem + suffix)
  {
    if suffix != [] {
      var k := |dir| + |stem|;
      assert (dir + (stem + "_azure.wav"))[k] == '_';
      assert (dir + (stem + suffix))[k] == '.';
    }
  }

  /** What running ffmpeg came to. */
  datatype FfmpegOutcome =
    | Exited(code: int)
      /** `FileNotFoundError`: no ffmpeg on the PATH. */
    | NotFound
      /** Any other exception. */
    | Failed(message: string)

  /** `_convert_audio_for_azure`: the converted path when ffmpeg exits with
      0, the original path on any other outcome, including a name
      `with_name` rejects. It never fails. `ffmpeg` stands for running the
      converter from the input to the output path. */
  function ConvertedAudioPath(p: string, ffmpeg: (string, string) -> FfmpegOutcome): (r: string)
    ensures r == p || (Name(p) != [] && r == AzureTarget(p) && ffmpeg(p, r) == Exited(0))
    ensures Name(p) != [] && ffmpeg(p, AzureTarget(p)) == Exited(0) ==> r == AzureTarget(p)
  {
    match WithName(p, AzureName(p))
    case None => p
    case Some(out) => if ffmpeg(p, out) == Exited(0) then out else p
  }
}
