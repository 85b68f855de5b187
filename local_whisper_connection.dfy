/** The local Whisper connection of the `com.mule.whisperer` connector: the
    older variant, which treats every non-WAV upload as MP3 and takes the
    language from the connection rather than from the request. */
module LocalWhisperConnection {
  import opened Common
  import opened Strings
  import opened Media
  import opened LocalInference
  import HelpersAudioUtils
  import AudioFileReader
  import Mp3ToWavConverter

  const UnableToConvertPrefix := "Unable to convert "
  const UnableToConvertSuffix := " to wav format"

  /** The two `catch` clauses around `convertMp3ToWav`, and what neither
      catches. */
  function ConversionFailure(m: MediaType, e: Throwable): (call: Call<TranscriptionResult>)
    ensures e.kind == UnsupportedAudioFileException ==>
      call == TranscriptionFailure(UnableToConvertPrefix + m.ToString() + UnableToConvertSuffix, e)
    ensures e.kind == IOException ==> call == TranscriptionFailure(ConversionFailureMessage, e)
    ensures !Caught(e) ==> call == Threw(e)
  {
    if e.kind == UnsupportedAudioFileException then
      TranscriptionFailure(UnableToConvertPrefix + m.ToString() + UnableToConvertSuffix, e)
    else if e.kind == IOException then TranscriptionFailure(ConversionFailureMessage, e)
    else Threw(e)
  }

  /** The conversion step, then the read of the converted file. */
  function Converted(m: MediaType, conversion: (FileSystem, Result<()>), host: Host, wavFilePath: string): (p: Prepared)
    ensures Classified(p)
    ensures p.Stopped? && p.call.Threw? ==> !Caught(p.call.exception)
    ensures p.Read? ==>
      conversion.1.Ok? &&
      AudioFileReader.ReadFileSpec(conversion.0, host.codecs, host.cwd, wavFilePath, host.stack).samples == Ok(p.samples)
  {
    var (fs, r) := conversion;
    match r
    case Err(e) => Stopped(fs, ConversionFailure(m, e))
    case Ok(_) => ReadStage(fs, host, wavFilePath)
  }

  class LocalWhisperConnection {
    const engine: Engine
    const threads: int
    const language: Option<string>

    constructor(engine: Engine, threads: int, language: Option<string>)
      ensures this.engine == engine && this.threads == threads && this.language == language
    {
      this.engine := engine;
      this.threads := threads;
      this.language := language;
    }

    /** The engine parameters: threads and language from the connection,
        no translation, no progress output, and neither a temperature nor an
        initial prompt, whatever the request says. */
    function Params(): (p: WhisperParams)
      ensures p.nThreads == threads && p.language == language
      ensures !p.translate && !p.printProgress
      ensures p.temperature.None? && p.initialPrompt.None?
    {
      WhisperParams(threads, false, false, language, None, None)
    }

    /** The buffered copy of the request's audio. */
    function TempPath(host: Host, audio: AudioContent): string {
      TempAudioPath(host, "audio." + HelpersAudioUtils.GuessAudioFileExtension(audio.mediaType))
    }

    /** `transcribe` up to the point where the engine runs. */
    function Prepare(fs: FileSystem, host: Host, audio: AudioContent): (p: Prepared)
      ensures Classified(p)
      ensures p.Stopped? && p.call.Threw? ==> !Caught(p.call.exception)
    {
      var tempPath := TempPath(host, audio);
      var (fs1, failure) := Buffered(fs, host, tempPath, audio.stream);
      if failure.Some? then
        Stopped(fs1, TranscriptionFailure(BufferFailureMessage, failure.value))
      else if !HelpersAudioUtils.IsWav(audio.mediaType) then
        var wavFilePath := ReplaceExtension(tempPath, ".wav");
        Converted(audio.mediaType, Mp3ToWavConverter.Conversion(fs1, host.codecs, tempPath, wavFilePath), host, wavFilePath)
      else ReadStage(fs1, host, tempPath)
    }

    /** What `transcribe` does to the file system and what it gives back;
        the fine-tuning prompt and the request options are not used. */
    function TranscribeSpec(fs: FileSystem, host: Host, audio: AudioContent,
                            fineTuningPrompt: Option<string>, params: SttParams): (FileSystem, Call<TranscriptionResult>)
    {
      Finish(Prepare(fs, host, audio), engine, Params())
    }

    /** `transcribe(audioContent, fineTuningPrompt, params)`. */
    method Transcribe(fs: FileSystem, host: Host, audio: AudioContent,
                      fineTuningPrompt: Option<string>, params: SttParams)
      returns (fs': FileSystem, call: Call<TranscriptionResult>)
      ensures (fs', call) == TranscribeSpec(fs, host, audio, fineTuningPrompt, params)
    {
      var whisperParams := WhisperParams(threads, false, false, language, None, None);
      var tempAudioFile := TempAudioPath(host, "audio." + HelpersAudioUtils.GuessAudioFileExtension(audio.mediaType));
      assert tempAudioFile == TempPath(host, audio);
      var failure;
      fs', failure := BufferToFile(fs, host, tempAudioFile, audio.stream);
      if failure.Some? {
        return fs', TranscriptionFailure(BufferFailureMessage, failure.value);
      }
      var processedFilePath := tempAudioFile;
      if !HelpersAudioUtils.IsWav(audio.mediaType) {
        var wavFilePath := ReplaceExtension(processedFilePath, ".wav");
        var converted;
        fs', converted := Mp3ToWavConverter.ConvertMp3ToWav(fs', host.codecs, processedFilePath, wavFilePath);
        assert Prepare(fs, host, audio) == Converted(audio.mediaType, (fs', converted), host, wavFilePath);
        if converted.Err? {
          return fs', ConversionFailure(audio.mediaType, converted.error);
        }
        processedFilePath := wavFilePath;
        assert Prepare(fs, host, audio) == ReadStage(fs', host, processedFilePath);
      } else {
        assert Prepare(fs, host, audio) == ReadStage(fs', host, processedFilePath);
      }
      fs', call := ReadAndRun(fs', host, processedFilePath, engine, whisperParams);
    }

    /** `generate`: a local connection cannot synthesise speech. */
    function Generate(text: string): (f: Future<seq<Byte>>)
      ensures f.Failed? && f.exception.kind == CompletionException && f.exception.cause.Some?
      ensures IsModuleError(f.exception.cause.value, ConnectionIncompatible)
      ensures f.exception.cause.value.message == GenerationUnsupportedMessage
    {
      GenerationUnsupported()
    }

    // ------------------------------------------------------------- lemmas

    /** Every upload that is not WAV goes through the MP3 converter, whatever
        its media type, and reaches the engine only from "audio.wav". */
    lemma NonWavIsTreatedAsMp3(fs: FileSystem, host: Host, audio: AudioContent)
      requires audio.stream.failure.None? && !HelpersAudioUtils.IsWav(audio.mediaType)
      requires host.openFailure(TempPath(host, audio)).None?
      ensures var tempPath := TempPath(host, audio);
        var fs1 := fs[tempPath := audio.stream.data];
        var wav := TempAudioPath(host, "audio.wav");
        Prepare(fs, host, audio) == Converted(audio.mediaType, Mp3ToWavConverter.Conversion(fs1, host.codecs, tempPath, wav), host, wav)
    {
      var tempPath := TempPath(host, audio);
      assert Buffered(fs, host, tempPath, audio.stream) == (fs[tempPath := audio.stream.data], None);
      var ext := HelpersAudioUtils.GuessAudioFileExtension(audio.mediaType);
      assert forall j :: 0 <= j < |ext| ==> WordChar(ext[j]);
      ConvertedPathIsAudioWav(host, ext);
    }

    /** A WAV upload is read straight from the buffered "audio.wav". */
    lemma WavIsReadDirectly(fs: FileSystem, host: Host, audio: AudioContent)
      requires audio.stream.failure.None? && HelpersAudioUtils.IsWav(audio.mediaType)
      requires host.openFailure(TempPath(host, audio)).None?
      ensures var wav := TempAudioPath(host, "audio.wav");
        Prepare(fs, host, audio) == ReadStage(fs[wav := audio.stream.data], host, wav)
    {
      assert "audio." + "wav" == "audio.wav";
    }

    /** A temporary file that cannot be opened, or a stream that fails while
        being buffered, gives a failed future carrying that exception; the
        open failure comes first, and a file that could not be opened is
        not created. */
    lemma BufferFailureIsAsynchronous(fs: FileSystem, host: Host, audio: AudioContent,
                                      fineTuningPrompt: Option<string>, params: SttParams)
      requires host.openFailure(TempPath(host, audio)).Some? || audio.stream.failure.Some?
      ensures var (fs', call) := TranscribeSpec(fs, host, audio, fineTuningPrompt, params);
        var open := host.openFailure(TempPath(host, audio));
        var failure := if open.Some? then Error(IOException, open.value) else audio.stream.failure.value;
        call.Returned? && call.future.Failed? &&
        call.future.exception.cause == Some(Wrapping(ModuleException(Transcription), BufferFailureMessage, failure)) &&
        (open.Some? ==> fs' == fs)
    {
    }

    /** No media type is refused: only an exception the `catch` clauses do
        not name escapes `transcribe`, and every failed future carries
        TRANSCRIPTION. */
    lemma FailureClassification(fs: FileSystem, host: Host, audio: AudioContent,
                                fineTuningPrompt: Option<string>, params: SttParams)
      ensures var (_, call) := TranscribeSpec(fs, host, audio, fineTuningPrompt, params);
        call.Threw? ==> !Caught(call.exception)
      ensures var (_, call) := TranscribeSpec(fs, host, audio, fineTuningPrompt, params);
        call.Returned? && call.future.Failed? ==>
          call.future.exception.kind == CompletionException && call.future.exception.cause.Some? &&
          IsModuleError(call.future.exception.cause.value, Transcription)
    {
      FinishFailuresAreTranscriptionErrors(Prepare(fs, host, audio), engine, Params());
    }

    /** A completed transcription is the joined text of the segments the
        engine reports with a zero result code, and it does not depend on
        the prompt or the request options. */
    lemma TranscriptComesFromTheEngine(fs: FileSystem, host: Host, audio: AudioContent,
                                       fineTuningPrompt: Option<string>, params: SttParams,
                                       otherPrompt: Option<string>, otherParams: SttParams)
      ensures TranscribeSpec(fs, host, audio, fineTuningPrompt, params) == TranscribeSpec(fs, host, audio, otherPrompt, otherParams)
      ensures var (_, call) := TranscribeSpec(fs, host, audio, fineTuningPrompt, params);
        call.Returned? && call.future.Completed? ==>
          Prepare(fs, host, audio).Read? &&
          var inference := engine(Params(), Prepare(fs, host, audio).samples);
          inference.resultCode == 0 &&
          call.future.value == TranscriptionResult(Transcript(inference.segments), None)
    {
      FinishCompletesWithTranscript(Prepare(fs, host, audio), engine, Params());
    }
  }
}
