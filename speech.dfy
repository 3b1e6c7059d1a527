/** The text-to-speech service (app/service/polly_service.py): which branch
    writes which bytes at which path, and the 44-byte placeholder WAV written
    when synthesis is unavailable or fails, checked against the canonical
    RIFF/WAVE PCM header layout. The synthesizer is an abstract outcome; the
    file system is a map from path to bytes. */
module Speech {
  import opened Wrappers
  import opened Text
  import opened Paths

  type Byte = b: int | 0 <= b < 256

  // ---- Little-endian fields ----

  function Pow256(n: nat): (p: nat)
    ensures p >= 1
  {
    if n == 0 then 1 else 256 * Pow256(n - 1)
  }

  /** `x` as `n` little-endian bytes. */
  function LittleEndian(x: nat, n: nat): (bytes: seq<Byte>)
    requires x < Pow256(n)
    ensures |bytes| == n
  {
    if n == 0 then [] else [x % 256] + LittleEndian(x / 256, n - 1)
  }

  /** The unsigned value of little-endian bytes. */
  function FromLittleEndian(bytes: seq<Byte>): nat {
    if bytes == [] then 0 else bytes[0] + 256 * FromLittleEndian(bytes[1..])
  }

  lemma {:induction false} LittleEndianRoundTrip(x: nat, n: nat)
    requires x < Pow256(n)
    ensures FromLittleEndian(LittleEndian(x, n)) == x
  {
    if n > 0 {
      LittleEndianRoundTrip(x / 256, n - 1);
      assert LittleEndian(x, n)[1..] == LittleEndian(x / 256, n - 1);
    }
  }

  /** Four ASCII characters as bytes. */
  function Tag(s: string): seq<Byte>
    requires |s| == 4 && forall i :: 0 <= i < 4 ==> s[i] as int < 128
  {
    [s[0] as int, s[1] as int, s[2] as int, s[3] as int]
  }

  // ---- The canonical PCM header ----

  datatype PcmFormat = PcmFormat(numChannels: nat, sampleRate: nat, bitsPerSample: nat)

  function ByteRate(f: PcmFormat): nat {
    f.sampleRate * f.numChannels * f.bitsPerSample / 8
  }

  function BlockAlign(f: PcmFormat): nat {
    f.numChannels * f.bitsPerSample / 8
  }

  lemma Pow256Values()
    ensures Pow256(2) == 65536 && Pow256(4) == 4294967296
  {
    assert Pow256(1) == 256;
    assert Pow256(3) == 16777216;
  }

  /** The header fields fit their widths. */
  predicate Representable(f: PcmFormat, dataSize: nat) {
    36 + dataSize < Pow256(4) && f.numChannels < Pow256(2) && f.sampleRate < Pow256(4)
    && ByteRate(f) < Pow256(4) && BlockAlign(f) < Pow256(2) && f.bitsPerSample < Pow256(2)
  }

  /** The RIFF chunk descriptor: "RIFF", the size of the rest of the file,
      "WAVE". */
  function RiffChunk(dataSize: nat): (h: seq<Byte>)
    requires 36 + dataSize < Pow256(4)
    ensures |h| == 12
  {
    Tag("RIFF") + LittleEndian(36 + dataSize, 4) + Tag("WAVE")
  }

  /** The 24-byte `fmt ` sub-chunk: size 16, format 1 (PCM), then the format. */
  function FmtChunk(f: PcmFormat): (h: seq<Byte>)
    requires Representable(f, 0)
    ensures |h| == 24
  {
    Tag("fmt ") + LittleEndian(16, 4) + LittleEndian(1, 2) + LittleEndian(f.numChannels, 2)
    + LittleEndian(f.sampleRate, 4) + LittleEndian(ByteRate(f), 4)
    + LittleEndian(BlockAlign(f), 2) + LittleEndian(f.bitsPerSample, 2)
  }

  /** The `data` sub-chunk header: "data" and the size of the samples. */
  function DataChunk(dataSize: nat): (h: seq<Byte>)
    requires dataSize < Pow256(4)
    ensures |h| == 8
  {
    Tag("data") + LittleEndian(dataSize, 4)
  }

  /** The 44-byte header of a PCM file with `dataSize` bytes of samples. */
  function PcmHeader(f: PcmFormat, dataSize: nat): (h: seq<Byte>)
    requires Representable(f, dataSize)
    ensures |h| == 44
  {
    RiffChunk(dataSize) + FmtChunk(f) + DataChunk(dataSize)
  }

  /** The header fields as a reader finds them. */
  datatype HeaderFields = HeaderFields(
    riff: seq<Byte>, chunkSize: nat, wave: seq<Byte>,
    fmt: seq<Byte>, subchunk1Size: nat, audioFormat: nat, numChannels: nat,
    sampleRate: nat, byteRate: nat, blockAlign: nat, bitsPerSample: nat,
    data: seq<Byte>, subchunk2Size: nat)

  /** Reads the fields of a 44-byte header at their offsets. */
  function ReadHeader(h: seq<Byte>): Option<HeaderFields> {
    if |h| < 44 then None
    else Some(HeaderFields(
      h[0..4], FromLittleEndian(h[4..8]), h[8..12],
      h[12..16], FromLittleEndian(h[16..20]), FromLittleEndian(h[20..22]), FromLittleEndian(h[22..24]),
      FromLittleEndian(h[24..28]), FromLittleEndian(h[28..32]), FromLittleEndian(h[32..34]), FromLittleEndian(h[34..36]),
      h[36..40], FromLittleEndian(h[40..44])))
  }

  /** What the canonical layout demands of the fields of a PCM header. */
  predicate ConsistentPcm(r: HeaderFields) {
    r.riff == Tag("RIFF") && r.wave == Tag("WAVE") && r.fmt == Tag("fmt ") && r.data == Tag("data")
    && r.subchunk1Size == 16 && r.audioFormat == 1
    && r.chunkSize == 4 + (8 + r.subchunk1Size) + (8 + r.subchunk2Size)
    && r.byteRate == r.sampleRate * r.numChannels * r.bitsPerSample / 8
    && r.blockAlign == r.numChannels * r.bitsPerSample / 8
  }

  /** Bytes 0-11 of the placeholder: "RIFF", ChunkSize 36, "WAVE". */
  const DummyRiffPart: seq<Byte> :=
    [0x52, 0x49, 0x46, 0x46] + [0x24, 0x00, 0x00, 0x00] + [0x57, 0x41, 0x56, 0x45]

  /** Bytes 12-35: "fmt ", Subchunk1Size 16, AudioFormat 1, NumChannels 1,
      SampleRate 44100, ByteRate 88200, BlockAlign 2, BitsPerSample 16. */
  const DummyFmtPart: seq<Byte> :=
    [0x66, 0x6D, 0x74, 0x20] + [0x10, 0x00, 0x00, 0x00] + [0x01, 0x00] + [0x01, 0x00]
    + [0x44, 0xAC, 0x00, 0x00] + [0x88, 0x58, 0x01, 0x00] + [0x02, 0x00] + [0x10, 0x00]

  /** Bytes 36-43: "data", Subchunk2Size 0. */
  const DummyDataPart: seq<Byte> := [0x64, 0x61, 0x74, 0x61] + [0x00, 0x00, 0x00, 0x00]

  /** The 44 bytes written when no synthesizer is available. */
  const DummyWav: seq<Byte> := DummyRiffPart + DummyFmtPart + DummyDataPart

  /** 16-bit mono at 44.1 kHz, the format the placeholder announces. */
  const DummyFormat := PcmFormat(1, 44100, 16)

  lemma TagBytes()
    ensures Tag("RIFF") == [0x52, 0x49, 0x46, 0x46] && Tag("WAVE") == [0x57, 0x41, 0x56, 0x45]
    ensures Tag("fmt ") == [0x66, 0x6D, 0x74, 0x20] && Tag("data") == [0x64, 0x61, 0x74, 0x61]
  {
  }

  lemma DummyRiffChunk()
    ensures 36 < Pow256(4) && DummyRiffPart == RiffChunk(0)
  {
    Pow256Values();
    TagBytes();
    assert LittleEndian(36, 4) == [0x24, 0, 0, 0];
  }

  lemma FmtLiterals()
    ensures Pow256(2) == 65536 && Pow256(4) == 4294967296
    ensures LittleEndian(16, 4) == [0x10, 0, 0, 0] && LittleEndian(1, 2) == [1, 0]
    ensures LittleEndian(44100, 4) == [0x44, 0xAC, 0, 0] && LittleEndian(88200, 4) == [0x88, 0x58, 0x01, 0]
    ensures LittleEndian(2, 2) == [2, 0] && LittleEndian(16, 2) == [0x10, 0]
  {
    Pow256Values();
  }

  lemma DummyRates()
    ensures ByteRate(DummyFormat) == 88200 && BlockAlign(DummyFormat) == 2
    ensures Representable(DummyFormat, 0)
  {
    Pow256Values();
  }

  lemma DummyFmtChunk()
    ensures Representable(DummyFormat, 0) && DummyFmtPart == FmtChunk(DummyFormat)
  {
    DummyRates();
    FmtLiterals();
    TagBytes();
  }

  lemma DummyDataChunk()
    ensures 0 < Pow256(4) && DummyDataPart == DataChunk(0)
  {
    Pow256Values();
    TagBytes();
    assert LittleEndian(0, 4) == [0, 0, 0, 0];
  }

  /** The placeholder is exactly the canonical header of an empty
      16-bit mono 44.1 kHz PCM file. */
  lemma DummyWavIsEmptyPcm()
    ensures Representable(DummyFormat, 0)
    ensures DummyWav == PcmHeader(DummyFormat, 0)
  {
    DummyRiffChunk();
    DummyFmtChunk();
    DummyDataChunk();
  }

  /** Where the parts of a three-part concatenation sit. */
  lemma Layout3(a: seq<Byte>, b: seq<Byte>, c: seq<Byte>)
    ensures var h := a + b + c;
      h[..|a|] == a && h[|a|..|a| + |b|] == b && h[|a| + |b|..] == c
  {
  }

  /** Where the eight fields of the `fmt ` sub-chunk sit. */
  lemma FmtLayout(t: seq<Byte>, a: seq<Byte>, b: seq<Byte>, c: seq<Byte>, d: seq<Byte>, e: seq<Byte>, g: seq<Byte>, k: seq<Byte>)
    requires |t| == 4 && |a| == 4 && |b| == 2 && |c| == 2 && |d| == 4 && |e| == 4 && |g| == 2 && |k| == 2
    ensures var h := t + a + b + c + d + e + g + k;
      h[0..4] == t && h[4..8] == a && h[8..10] == b && h[10..12] == c
      && h[12..16] == d && h[16..20] == e && h[20..22] == g && h[22..24] == k
  {
  }

  lemma RiffReadsBack(dataSize: nat)
    requires 36 + dataSize < Pow256(4)
    ensures var h := RiffChunk(dataSize);
      h[0..4] == Tag("RIFF") && FromLittleEndian(h[4..8]) == 36 + dataSize && h[8..12] == Tag("WAVE")
  {
    Layout3(Tag("RIFF"), LittleEndian(36 + dataSize, 4), Tag("WAVE"));
    LittleEndianRoundTrip(36 + dataSize, 4);
  }

  lemma FmtReadsBack(f: PcmFormat)
    requires Representable(f, 0)
    ensures var h := FmtChunk(f);
      h[0..4] == Tag("fmt ") && FromLittleEndian(h[4..8]) == 16 && FromLittleEndian(h[8..10]) == 1
      && FromLittleEndian(h[10..12]) == f.numChannels && FromLittleEndian(h[12..16]) == f.sampleRate
      && FromLittleEndian(h[16..20]) == ByteRate(f) && FromLittleEndian(h[20..22]) == BlockAlign(f)
      && FromLittleEndian(h[22..24]) == f.bitsPerSample
  {
    Pow256Values();
    FmtLayout(Tag("fmt "), LittleEndian(16, 4), LittleEndian(1, 2), LittleEndian(f.numChannels, 2),
      LittleEndian(f.sampleRate, 4), LittleEndian(ByteRate(f), 4), LittleEndian(BlockAlign(f), 2),
      LittleEndian(f.bitsPerSample, 2));
    LittleEndianRoundTrip(16, 4);
    LittleEndianRoundTrip(1, 2);
    LittleEndianRoundTrip(f.numChannels, 2);
    LittleEndianRoundTrip(f.sampleRate, 4);
    LittleEndianRoundTrip(ByteRate(f), 4);
    LittleEndianRoundTrip(BlockAlign(f), 2);
    LittleEndianRoundTrip(f.bitsPerSample, 2);
  }

  lemma DataReadsBack(dataSize: nat)
    requires dataSize < Pow256(4)
    ensures var h := DataChunk(dataSize);
      h[0..4] == Tag("data") && FromLittleEndian(h[4..8]) == dataSize
  {
    Layout3(Tag("data"), LittleEndian(dataSize, 4), []);
    assert Tag("data") + LittleEndian(dataSize, 4) + [] == DataChunk(dataSize);
    LittleEndianRoundTrip(dataSize, 4);
  }

  /** A slice of a whole taken from one of its parts. */
  lemma SliceOfPart(whole: seq<Byte>, part: seq<Byte>, at: nat, i: nat, j: nat)
    requires at + |part| <= |whole| && whole[at..at + |part|] == part
    requires i <= j <= |part|
    ensures whole[at + i..at + j] == part[i..j]
  {
    forall x | 0 <= x < j - i
      ensures whole[at + i..at + j][x] == part[i..j][x]
    {
      assert whole[at + i + x] == whole[at..at + |part|][i + x];
    }
  }

  /** Bytes 0-11 of a canonical header are its RIFF descriptor. */
  lemma PcmHeaderRiff(f: PcmFormat, dataSize: nat)
    requires Representable(f, dataSize)
    ensures var h := PcmHeader(f, dataSize);
      h[0..4] == Tag("RIFF") && FromLittleEndian(h[4..8]) == 36 + dataSize && h[8..12] == Tag("WAVE")
  {
    var riff := RiffChunk(dataSize);
    var h := PcmHeader(f, dataSize);
    Layout3(riff, FmtChunk(f), DataChunk(dataSize));
    RiffReadsBack(dataSize);
    SliceOfPart(h, riff, 0, 0, 4);
    SliceOfPart(h, riff, 0, 4, 8);
    SliceOfPart(h, riff, 0, 8, 12);
  }

  /** Bytes 12-35 of a canonical header are its `fmt ` sub-chunk. */
  lemma PcmHeaderFmt(f: PcmFormat, dataSize: nat)
    requires Representable(f, dataSize)
    ensures var h := PcmHeader(f, dataSize);
      h[12..16] == Tag("fmt ") && FromLittleEndian(h[16..20]) == 16 && FromLittleEndian(h[20..22]) == 1
      && FromLittleEndian(h[22..24]) == f.numChannels && FromLittleEndian(h[24..28]) == f.sampleRate
      && FromLittleEndian(h[28..32]) == ByteRate(f) && FromLittleEndian(h[32..34]) == BlockAlign(f)
      && FromLittleEndian(h[34..36]) == f.bitsPerSample
  {
    var fmt := FmtChunk(f);
    var h := PcmHeader(f, dataSize);
    Layout3(RiffChunk(dataSize), fmt, DataChunk(dataSize));
    FmtReadsBack(f);
    SliceOfPart(h, fmt, 12, 0, 4);
    SliceOfPart(h, fmt, 12, 4, 8);
    SliceOfPart(h, fmt, 12, 8, 10);
    SliceOfPart(h, fmt, 12, 10, 12);
    SliceOfPart(h, fmt, 12, 12, 16);
    SliceOfPart(h, fmt, 12, 16, 20);
    SliceOfPart(h, fmt, 12, 20, 22);
    SliceOfPart(h, fmt, 12, 22, 24);
  }

  /** Bytes 36-43 of a canonical header are its `data` sub-chunk header. */
  lemma PcmHeaderData(f: PcmFormat, dataSize: nat)
    requires Representable(f, dataSize)
    ensures var h := PcmHeader(f, dataSize);
      h[36..40] == Tag("data") && FromLittleEndian(h[40..44]) == dataSize
  {
    var data := DataChunk(dataSize);
    var h := PcmHeader(f, dataSize);
    Layout3(RiffChunk(dataSize), FmtChunk(f), data);
    DataReadsBack(dataSize);
    assert h[36..44] == data;
    SliceOfPart(h, data, 36, 0, 4);
    SliceOfPart(h, data, 36, 4, 8);
  }

  /** The fields of a canonical header, as `ReadHeader` finds them. */
  lemma PcmHeaderFields(f: PcmFormat, dataSize: nat)
    requires Representable(f, dataSize)
    ensures ReadHeader(PcmHeader(f, dataSize)) == Some(HeaderFields(
      Tag("RIFF"), 36 + dataSize, Tag("WAVE"),
      Tag("fmt "), 16, 1, f.numChannels, f.sampleRate, ByteRate(f), BlockAlign(f), f.bitsPerSample,
      Tag("data"), dataSize))
  {
    PcmHeaderRiff(f, dataSize);
    PcmHeaderFmt(f, dataSize);
    PcmHeaderData(f, dataSize);
  }

  /** Every canonical header reads back as consistent fields carrying its
      format and data size. */
  lemma PcmHeaderReadsBack(f: PcmFormat, dataSize: nat)
    requires Representable(f, dataSize)
    ensures ReadHeader(PcmHeader(f, dataSize)).Some?
    ensures var r := ReadHeader(PcmHeader(f, dataSize)).value;
      ConsistentPcm(r) && r.numChannels == f.numChannels && r.sampleRate == f.sampleRate
      && r.bitsPerSample == f.bitsPerSample && r.subchunk2Size == dataSize
  {
    PcmHeaderFields(f, dataSize);
  }

  /** The placeholder's fields: ChunkSize 36 = 4 + (8 + 16) + (8 + 0), PCM,
      ByteRate 88200 = 44100 x 1 x 16/8, BlockAlign 2 = 1 x 16/8. */
  lemma DummyWavFields()
    ensures ReadHeader(DummyWav).Some?
    ensures var r := ReadHeader(DummyWav).value;
      ConsistentPcm(r) && r.chunkSize == 36 && r.subchunk1Size == 16 && r.audioFormat == 1
      && r.numChannels == 1 && r.sampleRate == 44100 && r.byteRate == 88200
      && r.blockAlign == 2 && r.bitsPerSample == 16 && r.subchunk2Size == 0
  {
    DummyWavIsEmptyPcm();
    DummyRates();
    PcmHeaderFields(DummyFormat, 0);
  }

  // ---- The file system and the synthesizer ----

  /** The files written so far. */
  class FileStore {
    var files: map<string, seq<Byte>>

    constructor()
      ensures files == map[]
    {
      files := map[];
    }

    /** `open(path, "wb").write(data)` */
    method Write(path: string, data: seq<Byte>)
      modifies this
      ensures files == old(files)[path := data]
    {
      files := files[path := data];
    }
  }

  /** What one synthesis request comes to. */
  datatype SynthesisOutcome =
      /** `SynthesizingAudioCompleted`: the audio written to the requested file. */
    | Completed(audio: seq<Byte>)
    | Canceled(reason: string)
      /** Any other result reason. */
    | Unexpected(reason: string)
      /** An exception from the SDK. */
    | Raised(message: string)

  /** The path `text_to_speech` returns and the bytes it leaves there. */
  datatype Written = Written(path: string, bytes: seq<Byte>)

  /** Where the speech for `outputPath` goes and what is written there:
      the synthesized audio at the ".wav" target on success, the
      placeholder at the original path in every other case. */
  function SpeechFile(available: bool, text: string, outputPath: string,
                      synthesize: (string, string) -> SynthesisOutcome): (w: Written)
    ensures w.path == outputPath || w.path == WavTarget(outputPath)
    ensures w.bytes != DummyWav ==> available && synthesize(text, WavTarget(outputPath)).Completed?
    // Unavailable service: the placeholder at the requested path.
    ensures !available ==> w == Written(outputPath, DummyWav)
    // Completed synthesis: the audio at the ".wav" target, which is returned.
    ensures available && synthesize(text, WavTarget(outputPath)).Completed? ==>
      w == Written(WavTarget(outputPath), synthesize(text, WavTarget(outputPath)).audio)
    // Canceled, unexpected or raised: the placeholder at the ORIGINAL path.
    ensures available && !synthesize(text, WavTarget(outputPath)).Completed? ==>
      w == Written(outputPath, DummyWav)
  {
    if !available then Written(outputPath, DummyWav)
    else match synthesize(text, WavTarget(outputPath))
      case Completed(audio) => Written(WavTarget(outputPath), audio)
      case _ => Written(outputPath, DummyWav)
  }

  /** A failed ".mp3" request leaves the placeholder at the ".mp3" path, not
      at the ".wav" path a success would have used. */
  lemma FallbackKeepsOriginalPath(text: string, outputPath: string, synthesize: (string, string) -> SynthesisOutcome)
    requires Suffix(outputPath) == ".mp3"
    requires !synthesize(text, WavTarget(outputPath)).Completed?
    ensures SpeechFile(true, text, outputPath, synthesize) == Written(outputPath, DummyWav)
    ensures WavTarget(outputPath) != outputPath
  {
    WavTargetRewrites(outputPath);
  }

  /** For a ".wav" request the file is at the requested path whatever happens. */
  lemma WavRequestKeepsPath(available: bool, text: string, outputPath: string, synthesize: (string, string) -> SynthesisOutcome)
    requires |Name(outputPath)| > 4 && EndsWith(Name(outputPath), ".wav")
    ensures SpeechFile(available, text, outputPath, synthesize).path == outputPath
  {
    WavTargetKeepsWav(outputPath);
  }

  /** The speech service; `available` records whether its configuration
      could be created. */
  class SpeechSynthesizer {
    const available: bool

    constructor(configured: bool)
      ensures available == configured
    {
      available := configured;
    }

    /** `_create_dummy_file`: writes the placeholder at `outputPath`. */
    method CreateDummyFile(fs: FileStore, outputPath: string) returns (path: string)
      modifies fs
      ensures path == outputPath
      ensures fs.files == old(fs.files)[outputPath := DummyWav]
    {
      fs.Write(outputPath, DummyWav);
      path := outputPath;
    }

    /** `text_to_speech`: `synthesize` stands for the SDK speaking `text`
        into the given file. */
    method TextToSpeech(fs: FileStore, text: string, outputPath: string,
                        synthesize: (string, string) -> SynthesisOutcome) returns (path: string)
      modifies fs
      ensures path == SpeechFile(available, text, outputPath, synthesize).path
      ensures fs.files == old(fs.files)[path := SpeechFile(available, text, outputPath, synthesize).bytes]
      ensures !available ==> path == outputPath && fs.files == old(fs.files)[outputPath := DummyWav]
      ensures available && synthesize(text, WavTarget(outputPath)).Completed? ==>
        path == WavTarget(outputPath)
        && fs.files == old(fs.files)[path := synthesize(text, WavTarget(outputPath)).audio]
      ensures available && !synthesize(text, WavTarget(outputPath)).Completed? ==>
        path == outputPath && fs.files == old(fs.files)[outputPath := DummyWav]
    {
      if !available {
        path := CreateDummyFile(fs, outputPath);
        return;
      }
      var outputFile := outputPath;
      if Suffix(outputFile) == ".mp3" {
        outputFile := Dir(outputFile) + (Stem(outputFile) + ".wav");
      }
      var result := synthesize(text, outputFile);
      if result.Completed? {
        fs.Write(outputFile, result.audio);
        path := outputFile;
      } else {
        path := CreateDummyFile(fs, outputPath);
      }
    }
  }
}
