/**
  `AudioFileReader`: reading a WAVE file into the float samples the local
  engine takes, converting it to mono 16 kHz first when it is not.
 */
module AudioFileReader {
  import opened Common
  import opened Strings
  import opened Pcm
  import opened Media

  /** The file `convertToMono16kHz` writes beside its input. */
  const ConvertedName := "converted_16kHz_mono.wav"

  /** The float samples of a buffer of 16-bit little-endian PCM: one per
      whole pair of bytes, each scaled into [-1, 1]. */
  function Samples(bs: seq<Byte>): (xs: seq<real>)
    ensures |xs| == |bs| / 2
  {
    var ss := DecodeLE(bs);
    seq(|ss|, i requires 0 <= i < |ss| => Scale(ss[i]))
  }

  /** The sample loop of `readFile` over a filled capture buffer. */
  method ExtractSamples(buffer: array<Byte>) returns (samples: array<real>)
    ensures samples.Length == buffer.Length / 2
    ensures samples[..] == Samples(buffer[..])
    ensures forall i :: 0 <= i < samples.Length ==> -1.0 <= samples[i] <= 1.0
  {
    var capacity := buffer.Length / 2;
    samples := new real[capacity];
    var i := 0;
    while i < capacity
      invariant 0 <= i <= capacity
      invariant forall k :: 0 <= k < i ==> samples[k] == Scale(ShortFromLE(buffer[2 * k], buffer[2 * k + 1]))
    {
      var s := ShortFromLE(buffer[2 * i], buffer[2 * i + 1]);
      samples[i] := Max(-1.0, Min(s as real / 32767.0, 1.0));
      i := i + 1;
    }
    assert samples[..] == Samples(buffer[..]) by {
      forall k | 0 <= k < capacity
        ensures samples[..][k] == Samples(buffer[..])[k]
      {
        assert buffer[..][2 * k] == buffer[2 * k] && buffer[..][2 * k + 1] == buffer[2 * k + 1];
      }
    }
  }

  /** `convertToMono16kHz`: reopens the file, has Java Sound convert its
      stream to mono 16 kHz 16-bit little-endian PCM, and writes that as a
      WAVE file named `ConvertedName` in the same directory. */
  function ConvertToMono16kHz(fs: FileSystem, codecs: Codecs, file: string): (r: (FileSystem, Result<string>))
    ensures r.1.Ok? ==> EndsWith(r.1.value, ConvertedName) && r.1.value == Child(Parent(file), ConvertedName)
    ensures r.1.Ok? ==> exists pcm :: r.0 == fs[r.1.value := codecs.waveFile(Target, pcm)]
    ensures r.1.Err? ==> r.0 == fs
  {
    var output := Child(Parent(file), ConvertedName);
    if file !in fs then (fs, Err(FileNotFound(file)))
    else match codecs.javaSound(fs[file])
      case NotAudio => (fs, Err(Error(UnsupportedAudioFileException, "File of unsupported format")))
      case Wave(format, data) =>
        match codecs.convert(format, data, Target)
        case None => (fs, Err(Error(IllegalArgumentException, "Unsupported conversion")))
        case Some(pcm) => (fs[output := codecs.waveFile(Target, pcm)], Ok(output))
  }

  predicate IsMono16kHz(f: PcmFormat) {
    f.channels == 1 && f.sampleRate == 16000
  }

  /** What a call of `readFile` leaves behind: the file system, the samples or
      the exception, and the file the samples were last looked for in. */
  datatype ReadOutcome = ReadOutcome(fs: FileSystem, samples: Result<seq<real>>, source: string)

  /** `readFile(file)`. Each level of the recursion through the converted file
      takes one of `stack` frames; running out is a `StackOverflowError`. */
  function ReadFileSpec(fs: FileSystem, codecs: Codecs, cwd: string, file: string, stack: nat): ReadOutcome
    decreases stack
  {
    if file !in fs then ReadOutcome(fs, Err(FileNotFound(file)), file)
    else match codecs.javaSound(fs[file])
      case NotAudio => ReadOutcome(fs, Err(Error(UnsupportedAudioFileException, "File of unsupported format")), file)
      case Wave(format, data) =>
        if !IsMono16kHz(format) then
          if stack == 0 then ReadOutcome(fs, Err(Error(StackOverflowError, "")), file)
          else
            var (fs2, converted) := ConvertToMono16kHz(fs, codecs, file);
            match converted
            case Err(e) => ReadOutcome(fs2, Err(e), file)
            case Ok(next) => ReadFileSpec(fs2, codecs, cwd, next, stack - 1)
        else if |data| == 0 then
          ReadOutcome(fs, Err(Error(IOException, "Unable to read audio file: " + AbsolutePath(cwd, file))), file)
        else ReadOutcome(fs, Ok(Samples(data)), file)
  }

  /** `readFile`: the capture buffer holds the `available()` bytes of the
      stream; a read at the end of the stream (-1) fails naming the file. */
  method ReadFile(fs: FileSystem, codecs: Codecs, cwd: string, file: string, stack: nat)
    returns (fs': FileSystem, r: Result<array<real>>)
    ensures var o := ReadFileSpec(fs, codecs, cwd, file, stack);
      fs' == o.fs && r.Ok? == o.samples.Ok? &&
      (r.Ok? ==> r.value[..] == o.samples.value) &&
      (r.Err? ==> r.error == o.samples.error)
    decreases stack
  {
    if file !in fs {
      return fs, Err(FileNotFound(file));
    }
    var stream := codecs.javaSound(fs[file]);
    if stream.NotAudio? {
      return fs, Err(Error(UnsupportedAudioFileException, "File of unsupported format"));
    }
    var format := stream.format;
    if format.channels != 1 || format.sampleRate != 16000 {
      if stack == 0 {
        return fs, Err(Error(StackOverflowError, ""));
      }
      var (fs2, converted) := ConvertToMono16kHz(fs, codecs, file);
      if converted.Err? {
        return fs2, Err(converted.error);
      }
      fs', r := ReadFile(fs2, codecs, cwd, converted.value, stack - 1);
      return;
    }
    var available := |stream.data|;
    var captureBuffer := new Byte[available];
    var bytesRead := -1;
    if available > 0 {
      forall k | 0 <= k < available {
        captureBuffer[k] := stream.data[k];
      }
      bytesRead := available;
    }
    if bytesRead == -1 {
      return fs, Err(Error(IOException, "Unable to read audio file: " + AbsolutePath(cwd, file)));
    }
    assert captureBuffer[..] == stream.data;
    var samples := ExtractSamples(captureBuffer);
    return fs, Ok(samples);
  }

  const FfmpegFailure :=
    "Failed to convert M4A to WAV using FFmpeg. Ensure FFmpeg is installed and available in the system PATH."

  /** `convertM4AToWavWithFFmpeg`: runs the `ffmpeg` command line on the
      input, overwriting the output; any failure of the command becomes one
      `IOException` with a fixed message. */
  function ConvertM4AToWavWithFFmpeg(fs: FileSystem, codecs: Codecs, m4aFilePath: string, wavFilePath: string): (r: (FileSystem, Result<()>))
    ensures r.1.Ok? ==>
      m4aFilePath in fs && codecs.ffmpegCli(fs[m4aFilePath]).Some? &&
      r.0 == fs[wavFilePath := codecs.ffmpegCli(fs[m4aFilePath]).value]
    ensures r.1.Err? ==> r.0 == fs && r.1.error.kind == IOException && r.1.error.message == FfmpegFailure
  {
    if m4aFilePath !in fs then (fs, Err(Wrapping(IOException, FfmpegFailure, FileNotFound(m4aFilePath))))
    else match codecs.ffmpegCli(fs[m4aFilePath])
      case None => (fs, Err(Wrapping(IOException, FfmpegFailure, Error(RuntimeException, "ffmpeg exited with an error"))))
      case Some(wav) => (fs[wavFilePath := wav], Ok(()))
  }

  /** Samples are only ever taken from a mono 16 kHz stream: whatever the
      input, a successful read returns the scaled samples of a mono 16 kHz
      file in the resulting file system, all within [-1, 1]. */
  lemma {:induction false} SamplesComeFromMono16kHz(fs: FileSystem, codecs: Codecs, cwd: string, file: string, stack: nat)
    ensures var o := ReadFileSpec(fs, codecs, cwd, file, stack);
      o.samples.Ok? ==>
        o.source in o.fs && codecs.javaSound(o.fs[o.source]).Wave? &&
        IsMono16kHz(codecs.javaSound(o.fs[o.source]).format) &&
        o.samples.value == Samples(codecs.javaSound(o.fs[o.source]).data) &&
        |o.samples.value| == |codecs.javaSound(o.fs[o.source]).data| / 2 &&
        forall i :: 0 <= i < |o.samples.value| ==> -1.0 <= o.samples.value[i] <= 1.0
    decreases stack
  {
    var o := ReadFileSpec(fs, codecs, cwd, file, stack);
    if file in fs && codecs.javaSound(fs[file]).Wave? {
      var w := codecs.javaSound(fs[file]);
      if !IsMono16kHz(w.format) && stack > 0 {
        var (fs2, converted) := ConvertToMono16kHz(fs, codecs, file);
        if converted.Ok? {
          SamplesComeFromMono16kHz(fs2, codecs, cwd, converted.value, stack - 1);
        }
      } else if IsMono16kHz(w.format) && o.samples.Ok? {
        var ss := DecodeLE(w.data);
        forall i | 0 <= i < |o.samples.value|
          ensures -1.0 <= o.samples.value[i] <= 1.0
        {
          assert o.samples.value[i] == Scale(ss[i]);
        }
      }
    }
  }

  /** An input that is not mono 16 kHz is converted once and the converted
      file is read: when Java Sound reads its own WAVE files back and accepts
      the conversion, two stack frames suffice and the samples are those of
      the converted stream. */
  lemma ConvertedOnce(fs: FileSystem, codecs: Codecs, cwd: string, file: string, stack: nat, pcm: seq<Byte>)
    requires ReadsBackWhatItWrites(codecs)
    requires file in fs && codecs.javaSound(fs[file]).Wave?
    requires !IsMono16kHz(codecs.javaSound(fs[file]).format)
    requires codecs.convert(codecs.javaSound(fs[file]).format, codecs.javaSound(fs[file]).data, Target) == Some(pcm)
    requires stack >= 1 && |pcm| > 0
    ensures var o := ReadFileSpec(fs, codecs, cwd, file, stack);
      o.samples == Ok(Samples(pcm)) &&
      o.fs == fs[Child(Parent(file), ConvertedName) := codecs.waveFile(Target, pcm)]
  {
    var output := Child(Parent(file), ConvertedName);
    var fs2 := fs[output := codecs.waveFile(Target, pcm)];
    assert ConvertToMono16kHz(fs, codecs, file) == (fs2, Ok(output));
    assert codecs.javaSound(fs2[output]) == Wave(Target, pcm);
  }

  /** A recognised mono 16 kHz stream that delivers no bytes makes the read
      return -1, which fails with an `IOException` naming the file. */
  lemma EmptyStreamFails(fs: FileSystem, codecs: Codecs, cwd: string, file: string, stack: nat)
    requires file in fs && codecs.javaSound(fs[file]).Wave?
    requires IsMono16kHz(codecs.javaSound(fs[file]).format) && codecs.javaSound(fs[file]).data == []
    ensures var o := ReadFileSpec(fs, codecs, cwd, file, stack);
      o.fs == fs && o.samples.Err? && o.samples.error.kind == IOException &&
      Contains(o.samples.error.message, AbsolutePath(cwd, file))
  {
    ContainsMiddle("Unable to read audio file: ", AbsolutePath(cwd, file), "");
    assert "Unable to read audio file: " + AbsolutePath(cwd, file) + "" == "Unable to read audio file: " + AbsolutePath(cwd, file);
  }
}

/**
  `Mp3ToWavConverter`: decodes every MP3 frame with JLayer and writes the
  16-bit little-endian samples as one WAVE file.
 */
module Mp3ToWavConverter {
  import opened Common
  import opened Pcm
  import opened Media

  /** The output format, taken from a frame: its frequency and channel count,
      16-bit signed little-endian. */
  function FrameFormat(f: Mp3Frame): (p: PcmFormat)
    ensures p.sampleRate == f.frequency && p.channels == f.channelCount
    ensures p.sampleSizeInBits == 16 && p.signed && !p.bigEndian
  {
    PcmFormat(f.frequency, 16, f.channelCount, true, false)
  }

  /** The samples of all frames in frame order. */
  function AllSamples(frames: seq<Mp3Frame>): seq<Short> {
    if frames == [] then [] else AllSamples(frames[..|frames| - 1]) + frames[|frames| - 1].samples
  }

  /** The sum of the frames' buffer lengths (the source's `totalFrames`). */
  function TotalFrames(frames: seq<Mp3Frame>): nat {
    if frames == [] then 0 else TotalFrames(frames[..|frames| - 1]) + |frames[|frames| - 1].samples|
  }

  /** The data an `AudioInputStream` of `|data| / frameSize` frames delivers. */
  function WholeFrames(data: seq<Byte>, format: PcmFormat): (d: seq<Byte>)
    requires format.channels >= 1
    ensures |d| <= |data| && d == data[..|d|] && |data| - |d| < 2 * format.channels
  {
    var frameSize := 2 * format.channels;
    WholeFramesBound(|data|, frameSize);
    data[..(|data| / frameSize) * frameSize]
  }

  lemma WholeFramesBound(n: nat, frameSize: int)
    requires frameSize > 0
    ensures 0 <= (n / frameSize) * frameSize <= n < (n / frameSize) * frameSize + frameSize
  {
    assert n == (n / frameSize) * frameSize + n % frameSize;
  }

  /** What `convertMp3ToWav` leaves behind. The output stream is opened,
      and the file emptied, before decoding starts; a `JavaLayerException`
      is swallowed and leaves the empty file; a stream without frames leaves
      the format unset and fails with a `NullPointerException`. */
  function Conversion(fs: FileSystem, codecs: Codecs, mp3FilePath: string, wavFilePath: string): (FileSystem, Result<()>) {
    if mp3FilePath !in fs then (fs, Err(FileNotFound(mp3FilePath)))
    else
      var decoding := codecs.jlayer(fs[mp3FilePath]);
      if decoding.interrupted then (fs[wavFilePath := []], Ok(()))
      else if decoding.frames == [] then (fs[wavFilePath := []], Err(Error(NullPointerException, "")))
      else
        var format := FrameFormat(decoding.frames[0]);
        (fs[wavFilePath := codecs.waveFile(format, WholeFrames(EncodeLE(AllSamples(decoding.frames)), format))], Ok(()))
  }

  /** `convertMp3ToWav`. Whatever happens, the output file
      exists once the input opens, and the only failures are a missing
      input and the unset format; no `UnsupportedAudioFileException` is
      raised, although the signature declares one. */
  method ConvertMp3ToWav(fs: FileSystem, codecs: Codecs, mp3FilePath: string, wavFilePath: string)
    returns (fs': FileSystem, r: Result<()>)
    ensures (fs', r) == Conversion(fs, codecs, mp3FilePath, wavFilePath)
    ensures mp3FilePath in fs ==> wavFilePath in fs'
    ensures r.Err? ==> r.error.kind in {IOException, NullPointerException}
    ensures forall p :: p in fs && p != wavFilePath ==> p in fs' && fs'[p] == fs[p]
  {
    if mp3FilePath !in fs {
      return fs, Err(FileNotFound(mp3FilePath));
    }
    var decoding := codecs.jlayer(fs[mp3FilePath]);
    fs' := fs[wavFilePath := []];
    var frames := decoding.frames;
    var baseFormat, byteOutputStream, totalFrames := CollectFrames(frames);
    if decoding.interrupted {
      return fs', Ok(());
    }
    if baseFormat.None? {
      return fs', Err(Error(NullPointerException, ""));
    }
    var format := baseFormat.value;
    var frameLength := |byteOutputStream| / (2 * format.channels);
    assert byteOutputStream[..frameLength * (2 * format.channels)] == WholeFrames(byteOutputStream, format);
    fs' := fs'[wavFilePath := codecs.waveFile(format, byteOutputStream[..frameLength * (2 * format.channels)])];
    r := Ok(());
    assert fs' == fs[wavFilePath := codecs.waveFile(format, WholeFrames(EncodeLE(AllSamples(frames)), format))];
  }

  /** The frame loop of `convertMp3ToWav`: the format of the first frame,
      every sample in frame order as little-endian bytes, and the count of
      samples. */
  method CollectFrames(frames: seq<Mp3Frame>)
    returns (baseFormat: Option<PcmFormat>, byteOutputStream: seq<Byte>, totalFrames: nat)
    ensures baseFormat == if frames == [] then None else Some(FrameFormat(frames[0]))
    ensures byteOutputStream == EncodeLE(AllSamples(frames))
    ensures totalFrames == TotalFrames(frames)
  {
    baseFormat := None;
    byteOutputStream := [];
    totalFrames := 0;
    var k := 0;
    while k < |frames|
      invariant 0 <= k <= |frames|
      invariant baseFormat == if k == 0 then None else Some(FrameFormat(frames[0]))
      invariant byteOutputStream == EncodeLE(AllSamples(frames[..k]))
      invariant totalFrames == TotalFrames(frames[..k])
    {
      var output := frames[k];
      if baseFormat.None? {
        baseFormat := Some(PcmFormat(output.frequency, 16, output.channelCount, true, false));
      }
      var buffer := EncodeFrame(output.samples);
      assert frames[..k + 1][..k] == frames[..k];
      EncodeLEConcat(AllSamples(frames[..k]), output.samples);
      byteOutputStream := byteOutputStream + buffer[..];
      totalFrames := totalFrames + |output.samples|;
      k := k + 1;
    }
    assert frames[..k] == frames;
  }

  /** The byte loop of one frame: each short as its low byte, then its high byte. */
  method EncodeFrame(samples: seq<Short>) returns (buffer: array<Byte>)
    ensures buffer.Length == 2 * |samples|
    ensures buffer[..] == EncodeLE(samples)
  {
    buffer := new Byte[2 * |samples|];
    var i := 0;
    while i < |samples|
      invariant 0 <= i <= |samples|
      invariant forall j :: 0 <= j < 2 * i ==> buffer[j] == EncodeLE(samples)[j]
    {
      var val := samples[i];
      EncodeLEAt(samples, i);
      buffer[2 * i] := LowByte(val);
      buffer[2 * i + 1] := HighByte(val);
      i := i + 1;
    }
  }

  /** The encoded output is twice as long as the frames' buffers together. */
  lemma {:induction false} AllSamplesLength(frames: seq<Mp3Frame>)
    ensures |AllSamples(frames)| == TotalFrames(frames)
    ensures |EncodeLE(AllSamples(frames))| == 2 * TotalFrames(frames)
  {
    if frames != [] {
      AllSamplesLength(frames[..|frames| - 1]);
    }
  }

  /** The samples written are those of each frame in order: sample `j` of
      frame `k` sits after the samples of all earlier frames. */
  lemma {:induction false} AllSamplesInFrameOrder(frames: seq<Mp3Frame>, k: nat, j: nat)
    requires k < |frames| && j < |frames[k].samples|
    ensures TotalFrames(frames[..k]) + j < |AllSamples(frames)|
    ensures AllSamples(frames)[TotalFrames(frames[..k]) + j] == frames[k].samples[j]
    decreases |frames|
  {
    var n := |frames| - 1;
    var init := frames[..n];
    AllSamplesLength(init);
    AllSamplesLength(frames[..k]);
    if k == n {
      assert frames[..k] == init;
    } else {
      assert init[..k] == frames[..k];
      AllSamplesInFrameOrder(init, k, j);
    }
  }

  /** Reading the written data back as little-endian shorts gives every
      decoded sample unchanged; nothing is cut when the sample count is a
      whole number of frames (always so for mono). */
  lemma WrittenDataDecodes(frames: seq<Mp3Frame>)
    requires frames != [] && |AllSamples(frames)| % frames[0].channelCount == 0
    ensures WholeFrames(EncodeLE(AllSamples(frames)), FrameFormat(frames[0])) == EncodeLE(AllSamples(frames))
    ensures DecodeLE(WholeFrames(EncodeLE(AllSamples(frames)), FrameFormat(frames[0]))) == AllSamples(frames)
  {
    var all := AllSamples(frames);
    var c: int := frames[0].channelCount;
    var m := |all| / c;
    assert |EncodeLE(all)| == 2 * |all| == m * (2 * c);
    assert (|EncodeLE(all)| / (2 * c)) * (2 * c) == |EncodeLE(all)|;
    DecodeEncode(all);
  }
}
