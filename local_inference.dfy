/**
  What the two local Whisper connections share: the parameters they hand
  to the native engine, the engine's report, the loop that buffers the
  request's audio into a temporary file, the rewrite of that file's
  extension to ".wav", and the way a report becomes a transcription.
 */
module LocalInference {
  import opened Common
  import opened Strings
  import opened Media
  import AudioFileReader

  /** The fields of `WhisperFullParams` the connector sets; `None` leaves the
      library's default in place. */
  datatype WhisperParams = WhisperParams(
    nThreads: int,
    translate: bool,
    printProgress: bool,
    language: Option<string>,
    temperature: Option<real>,
    initialPrompt: Option<string>)

  /** What `whisper.full` returns, and the texts `fullGetSegmentText` gives
      for segments 0 to `fullNSegments - 1`. */
  datatype Inference = Inference(resultCode: int, segments: seq<string>)

  /** The native engine on a loaded context, as a function of the parameters
      and the samples. */
  type Engine = (WhisperParams, seq<real>) -> Inference

  /** WhisperJNI as its callers meet it: whether `loadLibrary` fails (an
      `IOException`, or an `UnsatisfiedLinkError` that no caller catches), and
      what `init` gives for a model path (an exception, a `null` context, or
      a context to run the engine on). */
  datatype NativeLibrary = NativeLibrary(loadFailure: Option<Throwable>, init: string -> Result<Option<Engine>>)

  // ------------------------------------------------------------ transcript

  /** Every segment text followed by one space, in segment order. */
  function Transcript(segments: seq<string>): string {
    if segments == [] then "" else Transcript(segments[..|segments| - 1]) + segments[|segments| - 1] + " "
  }

  /** The `StringBuilder` loop over the segments. */
  method JoinSegments(segments: seq<string>) returns (transcription: string)
    ensures transcription == Transcript(segments)
  {
    transcription := "";
    var i := 0;
    while i < |segments|
      invariant 0 <= i <= |segments|
      invariant transcription == Transcript(segments[..i])
    {
      assert segments[..i + 1][..i] == segments[..i];
      transcription := transcription + segments[i] + " ";
      i := i + 1;
    }
    assert segments[..i] == segments;
  }

  function TotalChars(segments: seq<string>): nat {
    if segments == [] then 0 else TotalChars(segments[..|segments| - 1]) + |segments[|segments| - 1]|
  }

  /** The transcript is its segments' text plus one space per segment. */
  lemma {:induction false} TranscriptLength(segments: seq<string>)
    ensures |Transcript(segments)| == TotalChars(segments) + |segments|
  {
    if segments != [] {
      TranscriptLength(segments[..|segments| - 1]);
    }
  }

  /** Joining is compositional: the transcript of two runs of segments is the
      two transcripts one after the other. */
  lemma {:induction false} TranscriptConcat(a: seq<string>, b: seq<string>)
    ensures Transcript(a + b) == Transcript(a) + Transcript(b)
    decreases |b|
  {
    if b == [] {
      assert a + b == a;
    } else {
      var init := b[..|b| - 1];
      assert (a + b)[..|a + b| - 1] == a + init;
      TranscriptConcat(a, init);
    }
  }

  /** Nothing is trimmed: a non-empty run of segments always ends in a space,
      and a single segment comes back with exactly one space after it. */
  lemma TranscriptUntrimmed(segments: seq<string>, text: string)
    ensures segments != [] ==> Transcript(segments)[|Transcript(segments)| - 1] == ' '
    ensures Transcript([text]) == text + " "
    ensures Transcript([]) == ""
  {
    assert [text][..0] == [];
  }

  // -------------------------------------------------------------- buffering

  const BufferSize := 1024

  /** The copy loop into the temporary file: each read delivers up to
      `BufferSize` bytes, written as read; a failing read ends the copy with
      what was written so far. */
  method BufferAudio(stream: ByteStream) returns (written: seq<Byte>, failure: Option<Throwable>)
    ensures written == stream.data
    ensures failure == stream.failure
  {
    written := [];
    var position := 0;
    while position < |stream.data|
      invariant 0 <= position <= |stream.data|
      invariant written == stream.data[..position]
    {
      var bytesRead := if |stream.data| - position < BufferSize then |stream.data| - position else BufferSize;
      written := written + stream.data[position..position + bytesRead];
      position := position + bytesRead;
    }
    assert stream.data[..position] == stream.data;
    failure := stream.failure;
  }

  /** `new FileOutputStream(path)` on the host: the `FileNotFoundException`,
      an `IOException`, for a path it cannot open for writing. */
  function OpenFailure(host: Host, path: string): (e: Option<Throwable>)
    ensures e.Some? <==> host.openFailure(path).Some?
    ensures e.Some? ==> e.value.kind == IOException && e.value.message == host.openFailure(path).value
  {
    match host.openFailure(path)
    case None => None
    case Some(message) => Some(Error(IOException, message))
  }

  /** The try-with-resources block that buffers the request's audio: a path
      that cannot be opened is not created and its exception is the
      failure; an opened one holds every byte the stream delivered, and the
      stream's own failure, if any, is the failure. */
  function Buffered(fs: FileSystem, host: Host, path: string, stream: ByteStream): (FileSystem, Option<Throwable>) {
    if OpenFailure(host, path).Some? then (fs, OpenFailure(host, path))
    else (fs[path := stream.data], stream.failure)
  }

  /** Opening the temporary file, then the copy loop into it. */
  method BufferToFile(fs: FileSystem, host: Host, path: string, stream: ByteStream)
    returns (fs': FileSystem, failure: Option<Throwable>)
    ensures (fs', failure) == Buffered(fs, host, path, stream)
  {
    failure := OpenFailure(host, path);
    if failure.Some? {
      return fs, failure;
    }
    var written;
    written, failure := BufferAudio(stream);
    fs' := fs[path := written];
  }

  // ------------------------------------------------------------- extension

  /** `\w` of `java.util.regex`: an ASCII letter, digit or underscore. */
  predicate WordChar(c: char) {
    'a' <= c <= 'z' || 'A' <= c <= 'Z' || '0' <= c <= '9' || c == '_'
  }

  /** The pattern `\.\w+$` matches at `i`: a dot, one or more word
      characters, and the end of the path. */
  predicate MatchesAt(path: string, i: int) {
    0 <= i < |path| - 1 && path[i] == '.' && forall j :: i < j < |path| ==> WordChar(path[j])
  }

  /** The path ends in an extension: there is a last dot, and what follows
      it is one or more word characters. */
  predicate HasExtension(path: string) {
    var k := LastIndexOf(path, '.');
    0 <= k < |path| - 1 && forall j :: k < j < |path| ==> WordChar(path[j])
  }

  /** `path.replaceAll("\\.\\w+$", replacement)`. */
  function ReplaceExtension(path: string, replacement: string): (r: string)
    ensures HasExtension(path) ==> r == path[..LastIndexOf(path, '.')] + replacement
    ensures !HasExtension(path) ==> r == path
  {
    if HasExtension(path) then path[..LastIndexOf(path, '.')] + replacement else path
  }

  /** `HasExtension` is the pattern: it matches somewhere exactly when the
      path has an extension, and then only at the last dot, so there is one
      replacement at most. */
  lemma ExtensionIsThePattern(path: string, i: int)
    ensures MatchesAt(path, i) ==> HasExtension(path) && i == LastIndexOf(path, '.')
    ensures HasExtension(path) ==> MatchesAt(path, LastIndexOf(path, '.'))
  {
    if MatchesAt(path, i) {
      var k := LastIndexOf(path, '.');
      assert k >= i;
    }
  }

  /** A name with an extension of word characters gets its extension
      replaced and keeps everything before the last dot. */
  lemma ReplacesLastExtension(stem: string, extension: string, replacement: string)
    requires extension != [] && forall j :: 0 <= j < |extension| ==> WordChar(extension[j])
    ensures ReplaceExtension(stem + "." + extension, replacement) == stem + replacement
  {
    var path := stem + "." + extension;
    assert path[|stem|] == '.';
    forall j | |stem| < j < |path|
      ensures path[j] != '.' && WordChar(path[j])
    {
      assert path[j] == extension[j - |stem| - 1];
    }
    assert LastIndexOf(path, '.') == |stem|;
    assert path[..|stem|] == stem;
  }

  // ---------------------------------------------------------------- outcome

  /** The exceptions the local connections catch around conversion and
      reading: `IOException` and `UnsupportedAudioFileException`. */
  predicate Caught(e: Throwable) {
    e.kind == IOException || e.kind == UnsupportedAudioFileException
  }

  const BufferFailureMessage := "Unable to buffer audio data for transcription"
  const ConversionFailureMessage := "Error converting audio content to wav format"
  const ResultCodeMessage := "Transcription failed with code "

  /** The future of a finished inference: a failure naming a non-zero result
      code, or the transcript with no attributes. */
  function Outcome(inference: Inference): (f: Future<TranscriptionResult>)
    ensures inference.resultCode != 0 ==>
      f.Failed? && f.exception.kind == CompletionException && f.exception.cause.Some? &&
      IsModuleError(f.exception.cause.value, Transcription) &&
      f.exception.cause.value.message == ResultCodeMessage + IntToString(inference.resultCode)
    ensures inference.resultCode == 0 ==>
      f == Completed(TranscriptionResult(Transcript(inference.segments), None))
  {
    if inference.resultCode != 0 then
      AsyncFailure(Error(ModuleException(Transcription), ResultCodeMessage + IntToString(inference.resultCode)))
    else Completed(TranscriptionResult(Transcript(inference.segments), None))
  }

  /** Two failed inferences report the same message only for the same result
      code. */
  lemma OutcomeNamesTheCode(a: Inference, b: Inference)
    requires a.resultCode != 0 && b.resultCode != 0
    requires Outcome(a) == Outcome(b)
    ensures a.resultCode == b.resultCode
  {
    var p := ResultCodeMessage;
    assert (p + IntToString(a.resultCode))[|p|..] == IntToString(a.resultCode);
    assert (p + IntToString(b.resultCode))[|p|..] == IntToString(b.resultCode);
    IntToStringInjective(a.resultCode, b.resultCode);
  }

  // ------------------------------------------------------------------ host

  /** The machine a local connection runs on: the audio libraries, the
      working directory, the `app.home` system property, how many nested
      `readFile` calls the Java stack allows, and the paths
      `new FileOutputStream` cannot open for writing (a missing or
      read-only directory), with the message of the exception it throws. */
  datatype Host = Host(codecs: Codecs, cwd: string, appHome: Option<string>, stack: nat,
                       openFailure: string -> Option<string>)

  /** The absolute path of `new File(appHome, name)`. */
  function TempAudioPath(host: Host, name: string): string {
    AbsolutePath(host.cwd, Child(host.appHome, name))
  }

  /** The directory part that `TempAudioPath` puts before a plain name. */
  function TempDirectory(host: Host): string {
    var dir := Child(host.appHome, "");
    if StartsWith(dir, "/") then dir else Child(Some(host.cwd), dir)
  }

  /** `new File(parent, name)` puts the same prefix before every name. */
  lemma ChildAppends(parent: Option<string>, name: string)
    ensures Child(parent, name) == Child(parent, "") + name
  {
    match parent
    case None =>
    case Some(d) =>
      if !(d != [] && d[|d| - 1] == '/') {
        assert d + "/" + name == (d + "/") + name;
      }
  }

  /** Resolving `dir + name` against the working directory only looks at
      `dir` when `name` does not start with '/'. */
  lemma AbsoluteAppends(cwd: string, dir: string, name: string)
    requires name != [] && name[0] != '/'
    ensures AbsolutePath(cwd, dir + name) == (if StartsWith(dir, "/") then dir else Child(Some(cwd), dir)) + name
  {
    if dir == [] {
      assert dir + name == name;
      assert !StartsWith(name, "/");
      ChildAppends(Some(cwd), name);
    } else {
      assert (dir + name)[..1] == dir[..1];
      assert StartsWith(dir + name, "/") == StartsWith(dir, "/");
      if !StartsWith(dir, "/") {
        ChildAppends(Some(cwd), dir + name);
        ChildAppends(Some(cwd), dir);
      }
    }
  }

  /** A plain name lands in the same directory whatever it is. */
  lemma TempAudioPathShape(host: Host, name: string)
    requires name != [] && name[0] != '/'
    ensures TempAudioPath(host, name) == TempDirectory(host) + name
  {
    ChildAppends(host.appHome, name);
    AbsoluteAppends(host.cwd, Child(host.appHome, ""), name);
  }

  /** The temporary audio file of a recognised format becomes, with its
      extension rewritten, the file "audio.wav" of the same directory. */
  lemma ConvertedPathIsAudioWav(host: Host, extension: string)
    requires extension != [] && forall j :: 0 <= j < |extension| ==> WordChar(extension[j])
    ensures ReplaceExtension(TempAudioPath(host, "audio." + extension), ".wav") == TempAudioPath(host, "audio.wav")
  {
    TempAudioPathShape(host, "audio." + extension);
    TempAudioPathShape(host, "audio.wav");
    AudioFileBecomesWav(TempDirectory(host), extension);
  }

  /** "audio." and an extension in a directory becomes "audio.wav" there. */
  lemma AudioFileBecomesWav(d: string, extension: string)
    requires extension != [] && forall j :: 0 <= j < |extension| ==> WordChar(extension[j])
    ensures ReplaceExtension(d + ("audio." + extension), ".wav") == d + "audio.wav"
  {
    assert "audio." == "audio" + ".";
    Assoc(d, "audio" + ".", extension);
    Assoc(d, "audio", ".");
    ReplacesLastExtension(d + "audio", extension, ".wav");
    assert "audio.wav" == "audio" + ".wav";
    Assoc(d, "audio", ".wav");
  }

  // ----------------------------------------------------------------- stages

  /** How far a local transcription gets before the engine runs: it stops
      with a file system and what `transcribe` does, or it has read samples. */
  datatype Prepared =
    | Stopped(fs: FileSystem, call: Call<TranscriptionResult>)
    | Read(fs: FileSystem, samples: seq<real>)

  /** A failure inside `supplyAsync`'s `TranscriptionException`. */
  function TranscriptionFailure(message: string, cause: Throwable): Call<TranscriptionResult> {
    Returned(AsyncFailure(Wrapping(ModuleException(Transcription), message, cause)))
  }

  /** How a local transcription may stop early: a synchronous exception is
      a refused format or one the `catch` clauses do not name, and a failed
      future carries TRANSCRIPTION inside a `CompletionException`. */
  predicate Classified(p: Prepared) {
    p.Stopped? ==>
      (p.call.Threw? ==> IsModuleError(p.call.exception, AudioFormatNotSupported) || !Caught(p.call.exception)) &&
      (p.call.Returned? ==>
        p.call.future.Failed? && p.call.future.exception.kind == CompletionException &&
        p.call.future.exception.cause.Some? && IsModuleError(p.call.future.exception.cause.value, Transcription))
  }

  /** The `try` around `readFile`: a caught exception becomes a failed
      future carrying TRANSCRIPTION; any other escapes `transcribe`. */
  function ReadStage(fs: FileSystem, host: Host, path: string): (p: Prepared)
    ensures p.Read? ==> AudioFileReader.ReadFileSpec(fs, host.codecs, host.cwd, path, host.stack).samples == Ok(p.samples)
    ensures p.Stopped? ==> AudioFileReader.ReadFileSpec(fs, host.codecs, host.cwd, path, host.stack).samples.Err?
    ensures Classified(p)
    ensures p.Stopped? && p.call.Threw? ==> !Caught(p.call.exception)
  {
    var o := AudioFileReader.ReadFileSpec(fs, host.codecs, host.cwd, path, host.stack);
    match o.samples
    case Ok(samples) => Read(o.fs, samples)
    case Err(e) => if Caught(e) then Stopped(o.fs, TranscriptionFailure(e.message, e)) else Stopped(o.fs, Threw(e))
  }

  /** The rest of `transcribe` once samples are read: run the engine and
      turn its report into the future. */
  function Finish(p: Prepared, engine: Engine, params: WhisperParams): (FileSystem, Call<TranscriptionResult>) {
    match p
    case Stopped(fs, call) => (fs, call)
    case Read(fs, samples) => (fs, Returned(Outcome(engine(params, samples))))
  }

  /** The failed futures of a local transcription all carry TRANSCRIPTION
      inside a `CompletionException`, whichever stage fails; so does the
      failure for a non-zero result code. */
  lemma FinishFailuresAreTranscriptionErrors(p: Prepared, engine: Engine, params: WhisperParams)
    requires Classified(p)
    ensures var (_, call) := Finish(p, engine, params);
      call.Threw? ==> IsModuleError(call.exception, AudioFormatNotSupported) || !Caught(call.exception)
    ensures var (_, call) := Finish(p, engine, params);
      call.Returned? && call.future.Failed? ==>
        call.future.exception.kind == CompletionException && call.future.exception.cause.Some? &&
        IsModuleError(call.future.exception.cause.value, Transcription)
  {
  }

  /** `readFile` followed by the engine run: what the rest of `transcribe`
      does once the file to read is known. */
  method ReadAndRun(fs: FileSystem, host: Host, path: string, engine: Engine, params: WhisperParams)
    returns (fs': FileSystem, call: Call<TranscriptionResult>)
    ensures (fs', call) == Finish(ReadStage(fs, host, path), engine, params)
  {
    var samples;
    fs', samples := AudioFileReader.ReadFile(fs, host.codecs, host.cwd, path, host.stack);
    if samples.Err? {
      if Caught(samples.error) {
        return fs', TranscriptionFailure(samples.error.message, samples.error);
      }
      return fs', Threw(samples.error);
    }
    var inference := engine(params, samples.value[..]);
    if inference.resultCode != 0 {
      return fs', Returned(AsyncFailure(Error(ModuleException(Transcription), ResultCodeMessage + IntToString(inference.resultCode))));
    }
    var transcription := JoinSegments(inference.segments);
    call := Returned(Completed(TranscriptionResult(transcription, None)));
  }

  /** A completed local transcription is the transcript of the segments the
      engine reports, with a zero result code, for samples actually read. */
  lemma FinishCompletesWithTranscript(p: Prepared, engine: Engine, params: WhisperParams)
    ensures var (_, call) := Finish(p, engine, params);
      p.Read? ==> call == Returned(Outcome(engine(params, p.samples)))
    ensures var (_, call) := Finish(p, engine, params);
      p.Read? && call.Returned? && call.future.Completed? ==>
        engine(params, p.samples).resultCode == 0 &&
        call.future.value == TranscriptionResult(Transcript(engine(params, p.samples).segments), None)
  {
  }

  const GenerationUnsupportedMessage := "Operation not supported by Local Whisper connection"

  /** `generate` of a local connection: always a failed future carrying
      CONNECTION_INCOMPATIBLE. */
  function GenerationUnsupported(): (f: Future<seq<Byte>>)
    ensures f.Failed? && f.exception.cause.Some? && IsModuleError(f.exception.cause.value, ConnectionIncompatible)
  {
    AsyncFailure(Error(ModuleException(ConnectionIncompatible), GenerationUnsupportedMessage))
  }
}
