/** The local Whisper connection of the `org.mule.extension.whisperer`
    connector: it buffers the request's audio into `app.home`, converts MP3
    and M4A to WAV, reads 16 kHz mono samples and runs the native engine on
    them. */
module WhisperJNIConnection {
  import opened Common
  import opened Strings
  import opened Media
  import opened LocalInference
  import AudioUtils
  import AudioFileReader
  import Mp3ToWavConverter

  const FormatNotSupportedMessage := "Audio format not supported: "

  /** The synchronous `ModuleException` for a format the connection cannot
      transcribe. */
  function FormatNotSupported(what: string): (e: Throwable)
    ensures IsModuleError(e, AudioFormatNotSupported)
    ensures StartsWith(e.message, FormatNotSupportedMessage) && EndsWith(e.message, what)
  {
    Error(ModuleException(AudioFormatNotSupported), FormatNotSupportedMessage + what)
  }

  /** The `catch (UnsupportedAudioFileException | IOException e)` around the
      conversion: caught failures become a failed future; the rest escape. */
  function Converted(conversion: (FileSystem, Result<()>), host: Host, wavFilePath: string): (p: Prepared)
    ensures Classified(p)
    ensures p.Read? ==>
      conversion.1.Ok? &&
      AudioFileReader.ReadFileSpec(conversion.0, host.codecs, host.cwd, wavFilePath, host.stack).samples == Ok(p.samples)
  {
    var (fs, r) := conversion;
    match r
    case Err(e) => if Caught(e) then Stopped(fs, TranscriptionFailure(ConversionFailureMessage, e)) else Stopped(fs, Threw(e))
    case Ok(_) => ReadStage(fs, host, wavFilePath)
  }

  class WhisperJNIConnection {
    const engine: Engine
    const threads: int
    const translate: bool
    const printProgress: bool

    constructor(engine: Engine, threads: int, translate: bool, printProgress: bool)
      ensures this.engine == engine && this.threads == threads
      ensures this.translate == translate && this.printProgress == printProgress
    {
      this.engine := engine;
      this.threads := threads;
      this.translate := translate;
      this.printProgress := printProgress;
    }

    /** The engine parameters: threads, translation and progress come from
        the connection, language and temperature from the request, and the
        initial prompt is the fine-tuning prompt. */
    function Params(fineTuningPrompt: Option<string>, params: SttParams): (p: WhisperParams)
      ensures p.nThreads == threads && p.translate == translate && p.printProgress == printProgress
      ensures p.language == params.language && p.temperature == Some(params.temperature)
      ensures p.initialPrompt == fineTuningPrompt
    {
      WhisperParams(threads, translate, printProgress, params.language, Some(params.temperature), fineTuningPrompt)
    }

    /** The buffered copy of the request's audio, named after the format
        guessed from its media type. */
    function TempPath(host: Host, audio: AudioContent): string {
      TempAudioPath(host, "audio." + AudioUtils.GuessAudioFileExtension(audio.mediaType))
    }

    /** The `switch` on the recognised format of the buffered file. */
    function FormatStage(fs: FileSystem, host: Host, tempPath: string, format: string): (p: Prepared)
      ensures Classified(p)
    {
      var wavFilePath := ReplaceExtension(tempPath, ".wav");
      match format
      case "wav" => ReadStage(fs, host, tempPath)
      case "mp3" => Converted(Mp3ToWavConverter.Conversion(fs, host.codecs, tempPath, wavFilePath), host, wavFilePath)
      case "m4a" => Converted(AudioFileReader.ConvertM4AToWavWithFFmpeg(fs, host.codecs, tempPath, wavFilePath), host, wavFilePath)
      case _ => Stopped(fs, Threw(FormatNotSupported(format)))
    }

    /** `transcribe` up to the point where the engine runs. */
    function Prepare(fs: FileSystem, host: Host, audio: AudioContent): (p: Prepared)
      ensures Classified(p)
    {
      var (fs1, failure) := Buffered(fs, host, TempPath(host, audio), audio.stream);
      if failure.Some? then
        Stopped(fs1, TranscriptionFailure(BufferFailureMessage, failure.value))
      else
        match AudioUtils.GuessAudioFormat(audio.mediaType)
        case None => Stopped(fs1, Threw(FormatNotSupported(audio.mediaType.ToString())))
        case Some(format) => FormatStage(fs1, host, TempPath(host, audio), format)
    }

    /** What `transcribe` does to the file system and what it gives back. */
    function TranscribeSpec(fs: FileSystem, host: Host, audio: AudioContent,
                            fineTuningPrompt: Option<string>, params: SttParams): (FileSystem, Call<TranscriptionResult>)
    {
      Finish(Prepare(fs, host, audio), engine, Params(fineTuningPrompt, params))
    }

    /** The `switch` and everything after it. */
    method ConvertAndRun(fs: FileSystem, host: Host, tempPath: string, format: string, whisperParams: WhisperParams)
      returns (fs': FileSystem, call: Call<TranscriptionResult>)
      ensures (fs', call) == Finish(FormatStage(fs, host, tempPath, format), engine, whisperParams)
    {
      var wavFilePath := ReplaceExtension(tempPath, ".wav");
      var converted: Result<()>;
      match format {
        case "wav" =>
          fs', call := ReadAndRun(fs, host, tempPath, engine, whisperParams);
          return;
        case "mp3" =>
          fs', converted := Mp3ToWavConverter.ConvertMp3ToWav(fs, host.codecs, tempPath, wavFilePath);
        case "m4a" =>
          var (fs2, r) := AudioFileReader.ConvertM4AToWavWithFFmpeg(fs, host.codecs, tempPath, wavFilePath);
          fs', converted := fs2, r;
        case _ =>
          return fs, Threw(FormatNotSupported(format));
      }
      if converted.Err? {
        if Caught(converted.error) {
          return fs', TranscriptionFailure(ConversionFailureMessage, converted.error);
        }
        return fs', Threw(converted.error);
      }
      fs', call := ReadAndRun(fs', host, wavFilePath, engine, whisperParams);
    }

    /** `transcribe(audioContent, fineTuningPrompt, params)`. */
    method Transcribe(fs: FileSystem, host: Host, audio: AudioContent,
                      fineTuningPrompt: Option<string>, params: SttParams)
      returns (fs': FileSystem, call: Call<TranscriptionResult>)
      ensures (fs', call) == TranscribeSpec(fs, host, audio, fineTuningPrompt, params)
    {
      var whisperParams := WhisperParams(threads, translate, printProgress, params.language, Some(params.temperature), fineTuningPrompt);
      var tempAudioFile := TempAudioPath(host, "audio." + AudioUtils.GuessAudioFileExtension(audio.mediaType));
      var failure;
      fs', failure := BufferToFile(fs, host, tempAudioFile, audio.stream);
      if failure.Some? {
        return fs', TranscriptionFailure(BufferFailureMessage, failure.value);
      }
      var audioFormat := AudioUtils.GuessAudioFormat(audio.mediaType);
      if audioFormat.None? {
        return fs', Threw(FormatNotSupported(audio.mediaType.ToString()));
      }
      fs', call := ConvertAndRun(fs', host, tempAudioFile, audioFormat.value, whisperParams);
    }

    /** `generate`: a local connection cannot synthesise speech. */
    function Generate(text: string): (f: Future<seq<Byte>>)
      ensures f.Failed? && f.exception.kind == CompletionException && f.exception.cause.Some?
      ensures IsModuleError(f.exception.cause.value, ConnectionIncompatible)
      ensures f.exception.cause.value.message == GenerationUnsupportedMessage
    {
      GenerationUnsupported()
    }

    // ------------------------------------------------------------- lemmas

    /** A media type with no known format is buffered as "audio.unknown" and
        then refused synchronously, naming the whole media type. */
    lemma UnknownFormatThrows(fs: FileSystem, host: Host, audio: AudioContent,
                              fineTuningPrompt: Option<string>, params: SttParams)
      requires audio.stream.failure.None? && AudioUtils.GuessAudioFormat(audio.mediaType).None?
      requires host.openFailure(TempPath(host, audio)).None?
      ensures TranscribeSpec(fs, host, audio, fineTuningPrompt, params) ==
        (fs[TempAudioPath(host, "audio.unknown") := audio.stream.data],
         Threw(FormatNotSupported(audio.mediaType.ToString())))
    {
      assert "audio." + "unknown" == "audio.unknown";
    }

    /** FLAC, OGG, WEBA and AAC are recognised but have no conversion: the
        request is refused synchronously, naming the format. */
    lemma UnconvertedFormatsThrow(fs: FileSystem, host: Host, audio: AudioContent,
                                  fineTuningPrompt: Option<string>, params: SttParams)
      requires audio.stream.failure.None? && host.openFailure(TempPath(host, audio)).None?
      requires AudioUtils.GuessAudioFormat(audio.mediaType).Some?
      requires AudioUtils.GuessAudioFormat(audio.mediaType).value in {"flac", "ogg", "weba", "aac"}
      ensures var format := AudioUtils.GuessAudioFormat(audio.mediaType).value;
        TranscribeSpec(fs, host, audio, fineTuningPrompt, params) ==
        (fs[TempAudioPath(host, "audio." + format) := audio.stream.data], Threw(FormatNotSupported(format)))
    {
    }

    /** A temporary file that cannot be opened, or a stream that fails while
        being buffered, gives a failed future carrying that exception, even
        for a format the connection would refuse; the open failure comes
        first, and a file that could not be opened is not created. */
    lemma BufferFailureIsAsynchronous(fs: FileSystem, host: Host, audio: AudioContent,
                                      fineTuningPrompt: Option<string>, params: SttParams)
      requires host.openFailure(TempPath(host, audio)).Some? || audio.stream.failure.Some?
      ensures var (fs', call) := TranscribeSpec(fs, host, audio, fineTuningPrompt, params);
        var open := host.openFailure(TempPath(host, audio));
        var failure := if open.Some? then Error(IOException, open.value) else audio.stream.failure.value;
        call.Returned? && call.future.Failed? &&
        call.future.exception.cause == Some(Wrapping(ModuleException(Transcription), BufferFailureMessage, failure)) &&
        (open.Some? ==> fs' == fs)
    {
    }

    /** Only a refused format, or a failure outside `IOException` and
        `UnsupportedAudioFileException`, escapes `transcribe`; every other
        failure reaches the future as a TRANSCRIPTION error. */
    lemma FailureClassification(fs: FileSystem, host: Host, audio: AudioContent,
                                fineTuningPrompt: Option<string>, params: SttParams)
      ensures var (_, call) := TranscribeSpec(fs, host, audio, fineTuningPrompt, params);
        call.Threw? ==> IsModuleError(call.exception, AudioFormatNotSupported) || !Caught(call.exception)
      ensures var (_, call) := TranscribeSpec(fs, host, audio, fineTuningPrompt, params);
        call.Returned? && call.future.Failed? ==>
          call.future.exception.kind == CompletionException && call.future.exception.cause.Some? &&
          IsModuleError(call.future.exception.cause.value, Transcription)
    {
      FinishFailuresAreTranscriptionErrors(Prepare(fs, host, audio), engine, Params(fineTuningPrompt, params));
    }

    /** The extensions of the converted formats are words for `\w+`. */
    lemma ConvertedFormatsAreWords(format: string)
      requires format == "mp3" || format == "m4a"
      ensures format != [] && forall j :: 0 <= j < |format| ==> WordChar(format[j])
    {
    }

    /** The samples the engine sees: for WAV those of the buffered file, for
        MP3 and M4A those of "audio.wav" beside it after a conversion that
        succeeded. */
    lemma SamplesComeFromTheRightFile(fs: FileSystem, host: Host, audio: AudioContent, format: string)
      requires audio.stream.failure.None? && AudioUtils.GuessAudioFormat(audio.mediaType) == Some(format)
      requires host.openFailure(TempPath(host, audio)).None?
      requires Prepare(fs, host, audio).Read?
      ensures var p := Prepare(fs, host, audio);
        var wav := TempAudioPath(host, "audio.wav");
        format in {"wav", "mp3", "m4a"} &&
        (format == "wav" ==>
          AudioFileReader.ReadFileSpec(fs[wav := audio.stream.data], host.codecs, host.cwd, wav, host.stack).samples == Ok(p.samples)) &&
        (format == "mp3" ==>
          var conversion := Mp3ToWavConverter.Conversion(fs[TempAudioPath(host, "audio.mp3") := audio.stream.data],
                                                          host.codecs, TempAudioPath(host, "audio.mp3"), wav);
          conversion.1.Ok? &&
          AudioFileReader.ReadFileSpec(conversion.0, host.codecs, host.cwd, wav, host.stack).samples == Ok(p.samples)) &&
        (format == "m4a" ==>
          var conversion := AudioFileReader.ConvertM4AToWavWithFFmpeg(fs[TempAudioPath(host, "audio.m4a") := audio.stream.data],
                                                                       host.codecs, TempAudioPath(host, "audio.m4a"), wav);
          conversion.1.Ok? &&
          AudioFileReader.ReadFileSpec(conversion.0, host.codecs, host.cwd, wav, host.stack).samples == Ok(p.samples))
    {
      var tempPath := TempAudioPath(host, "audio." + format);
      var fs1 := fs[tempPath := audio.stream.data];
      PrepareIsFormatStage(fs, host, audio, format);
      var p := FormatStage(fs1, host, tempPath, format);
      var wav := TempAudioPath(host, "audio.wav");
      FormatStageReads(fs1, host, tempPath, format);
      if format == "wav" {
        WavFileName();
        assert tempPath == wav;
      } else {
        ConvertedFormatsAreWords(format);
        ConvertedPathIsAudioWav(host, format);
        assert ReplaceExtension(tempPath, ".wav") == wav;
        ConvertedFileNames();
        if format == "mp3" {
          assert tempPath == TempAudioPath(host, "audio.mp3");
        } else {
          assert tempPath == TempAudioPath(host, "audio.m4a");
        }
      }
    }

    /** A WAV upload is buffered under the name the engine reads. */
    lemma WavFileName()
      ensures "audio." + "wav" == "audio.wav"
    {
    }

    /** The names the converted formats are buffered under. */
    lemma ConvertedFileNames()
      ensures "audio." + "mp3" == "audio.mp3" && "audio." + "m4a" == "audio.m4a"
    {
    }

    /** Past the buffering, a recognised format goes to the `switch` with the
        file named after it. */
    lemma PrepareIsFormatStage(fs: FileSystem, host: Host, audio: AudioContent, format: string)
      requires audio.stream.failure.None? && AudioUtils.GuessAudioFormat(audio.mediaType) == Some(format)
      requires host.openFailure(TempPath(host, audio)).None?
      ensures var tempPath := TempAudioPath(host, "audio." + format);
        Prepare(fs, host, audio) == FormatStage(fs[tempPath := audio.stream.data], host, tempPath, format)
    {
      var tempPath := TempAudioPath(host, "audio." + format);
      assert TempPath(host, audio) == tempPath;
      assert Buffered(fs, host, tempPath, audio.stream) == (fs[tempPath := audio.stream.data], None);
    }

    /** The samples of a stage that reads: the file itself for "wav", the
        converted file beside it for "mp3" and "m4a". */
    lemma FormatStageReads(fs: FileSystem, host: Host, tempPath: string, format: string)
      requires FormatStage(fs, host, tempPath, format).Read?
      ensures var p := FormatStage(fs, host, tempPath, format);
        format in {"wav", "mp3", "m4a"} &&
        (format == "wav" ==>
          AudioFileReader.ReadFileSpec(fs, host.codecs, host.cwd, tempPath, host.stack).samples == Ok(p.samples)) &&
        (format == "mp3" ==>
          var conversion := Mp3ToWavConverter.Conversion(fs, host.codecs, tempPath, ReplaceExtension(tempPath, ".wav"));
          conversion.1.Ok? &&
          AudioFileReader.ReadFileSpec(conversion.0, host.codecs, host.cwd, ReplaceExtension(tempPath, ".wav"), host.stack).samples == Ok(p.samples)) &&
        (format == "m4a" ==>
          var conversion := AudioFileReader.ConvertM4AToWavWithFFmpeg(fs, host.codecs, tempPath, ReplaceExtension(tempPath, ".wav"));
          conversion.1.Ok? &&
          AudioFileReader.ReadFileSpec(conversion.0, host.codecs, host.cwd, ReplaceExtension(tempPath, ".wav"), host.stack).samples == Ok(p.samples))
    {
      var wavFilePath := ReplaceExtension(tempPath, ".wav");
      if format == "mp3" {
        var conversion := Mp3ToWavConverter.Conversion(fs, host.codecs, tempPath, wavFilePath);
        assert AudioFileReader.ReadFileSpec(conversion.0, host.codecs, host.cwd, wavFilePath, host.stack).samples ==
          Ok(FormatStage(fs, host, tempPath, format).samples);
      } else if format == "m4a" {
        var conversion := AudioFileReader.ConvertM4AToWavWithFFmpeg(fs, host.codecs, tempPath, wavFilePath);
        assert AudioFileReader.ReadFileSpec(conversion.0, host.codecs, host.cwd, wavFilePath, host.stack).samples ==
          Ok(FormatStage(fs, host, tempPath, format).samples);
      }
    }

    /** A completed transcription is the joined text of the segments the
        engine reports, with a zero result code, for the connection's
        parameters and samples read from the audio. */
    lemma TranscriptComesFromTheEngine(fs: FileSystem, host: Host, audio: AudioContent,
                                       fineTuningPrompt: Option<string>, params: SttParams)
      ensures var (_, call) := TranscribeSpec(fs, host, audio, fineTuningPrompt, params);
        call.Returned? && call.future.Completed? ==>
          Prepare(fs, host, audio).Read? &&
          var inference := engine(Params(fineTuningPrompt, params), Prepare(fs, host, audio).samples);
          inference.resultCode == 0 &&
          call.future.value == TranscriptionResult(Transcript(inference.segments), None)
    {
      var p := Prepare(fs, host, audio);
      FinishCompletesWithTranscript(p, engine, Params(fineTuningPrompt, params));
    }
  }
}
