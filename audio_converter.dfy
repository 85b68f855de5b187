/**
  `AudioConverter`: turns an audio file of a named format into a WAVE
  file. WAV is copied, MP3 goes to the JLayer decoder, and the extended
  formats (M4A, AAC, MP4, FLAC, OGG, WEBM) go to the FFmpeg decoder when
  ByteDeco was found on the classpath; otherwise they are refused.
 */
module AudioConverter {
  import opened Common
  import opened Strings
  import opened Media
  import Mp3ToWavConverter
  import ByteDecoConverter

  /** Where a normalised (lower-cased) format name is sent. */
  datatype Route = Copy | Mp3Decoder | ExtendedDecoder | Unsupported

  /** The dispatch `switch` on the normalised format. */
  function RouteOf(normalizedFormat: string): (route: Route)
    ensures route == Copy <==> normalizedFormat == "wav"
    ensures route == Mp3Decoder <==> normalizedFormat == "mp3"
    ensures route == ExtendedDecoder <==> normalizedFormat in {"m4a", "aac", "mp4", "flac", "ogg", "webm"}
  {
    match normalizedFormat
    case "wav" => Copy
    case "mp3" => Mp3Decoder
    case "m4a" | "aac" | "mp4" => ExtendedDecoder
    case "flac" | "ogg" | "webm" => ExtendedDecoder
    case _ => Unsupported
  }

  const DependencySnippet: string :=
    " format requires ByteDeco FFmpeg. Add this dependency to your Mule app pom.xml:\n" +
    "<dependency>\n" +
    "  <groupId>"
  const GroupId: string := "org.bytedeco"
  const ArtifactLine: string := "</groupId>\n  <artifactId>"
  const ArtifactId: string := "ffmpeg-platform"
  const VersionLine: string := "</artifactId>\n  <version>"
  const Version: string := "6.1.1-1.5.10"
  const DependencyNote: string :=
    "</version>\n" +
    "</dependency>\n\n" +
    "Note: This adds ~150MB of native binaries. For smaller size, use platform-specific artifact:\n" +
    "  - ffmpeg (classifier: macosx-arm64) - ~30MB for Mac M1/M2/M3\n" +
    "  - ffmpeg (classifier: macosx-x86_64) - ~30MB for Intel Mac\n" +
    "  - ffmpeg (classifier: linux-x86_64) - ~30MB for Linux\n" +
    "  - ffmpeg (classifier: windows-x86_64) - ~30MB for Windows\n\n" +
    "Core formats (MP3, M4A, WAV) work without this dependency.\n" +
    "See: https://mac-project.ai/docs/mac-whisperer/audio-formats"

  /** `getExtendedFormatMissingDependencyMessage`: the upper-cased format,
      then the Maven coordinates of the dependency that is missing. */
  function MissingDependencyMessage(format: string): (message: string)
    ensures StartsWith(message, ToUpper(format))
    ensures Contains(message, GroupId) && Contains(message, ArtifactId) && Contains(message, Version)
  {
    var head := ToUpper(format) + DependencySnippet;
    var message := head + GroupId + ArtifactLine + ArtifactId + VersionLine + Version + DependencyNote;
    ContainsMiddle(head, GroupId, ArtifactLine + ArtifactId + VersionLine + Version + DependencyNote);
    assert message == head + GroupId + (ArtifactLine + ArtifactId + VersionLine + Version + DependencyNote);
    ContainsMiddle(head + GroupId + ArtifactLine, ArtifactId, VersionLine + Version + DependencyNote);
    assert message == head + GroupId + ArtifactLine + ArtifactId + (VersionLine + Version + DependencyNote);
    ContainsMiddle(head + GroupId + ArtifactLine + ArtifactId + VersionLine, Version, DependencyNote);
    assert message[..|ToUpper(format)|] == ToUpper(format);
    message
  }

  const SupportedFormatsText: string :=
    "Supported formats: MP3, M4A, AAC, WAV (core) and FLAC, OGG, WEBM (with ByteDeco FFmpeg)"

  /** The message of the `default` branch, naming the format as given. */
  function UnsupportedFormatMessage(format: string): (message: string)
    ensures StartsWith(message, "Unsupported audio format: " + format)
    ensures Contains(message, SupportedFormatsText)
  {
    var message := "Unsupported audio format: " + format + ". " + SupportedFormatsText;
    ContainsMiddle("Unsupported audio format: " + format + ". ", SupportedFormatsText, "");
    assert message + "" == message;
    assert message[..|"Unsupported audio format: " + format|] == "Unsupported audio format: " + format;
    message
  }

  /** The `catch` around the MP3 decoder: an `UnsupportedAudioFileException`
      becomes an `IOException` caused by it; anything else passes. */
  function RewrapMp3Failure(r: Result<()>): (r': Result<()>)
    ensures r.Ok? ==> r' == r
    ensures r.Err? && r.error.kind == UnsupportedAudioFileException ==>
      r' == Err(Wrapping(IOException, "MP3 file format not supported", r.error))
    ensures r.Err? && r.error.kind != UnsupportedAudioFileException ==> r' == r
  {
    if r.Err? && r.error.kind == UnsupportedAudioFileException
    then Err(Wrapping(IOException, "MP3 file format not supported", r.error))
    else r
  }

  /** `Files.copy(input, output, REPLACE_EXISTING)`; a missing input raises
      `NoSuchFileException`, whose message is the path. */
  function CopyFile(fs: FileSystem, inputPath: string, outputPath: string): (FileSystem, Result<()>) {
    if inputPath !in fs then (fs, Err(Error(IOException, inputPath)))
    else (fs[outputPath := fs[inputPath]], Ok(()))
  }

  /** The file system and outcome of `convertToWav(inputPath, outputPath, format)`
      when ByteDeco's detection gave `byteDecoAvailable`. */
  function Conversion(byteDecoAvailable: bool, fs: FileSystem, codecs: Codecs,
                      inputPath: string, outputPath: string, format: string): (FileSystem, Result<()>)
  {
    var normalizedFormat := ToLower(format);
    match RouteOf(normalizedFormat)
    case Copy => CopyFile(fs, inputPath, outputPath)
    case Mp3Decoder =>
      var (fs', r) := Mp3ToWavConverter.Conversion(fs, codecs, inputPath, outputPath);
      (fs', RewrapMp3Failure(r))
    case ExtendedDecoder =>
      if byteDecoAvailable then ByteDecoConverter.Conversion(fs, codecs, inputPath, outputPath)
      else (fs, Err(Error(UnsupportedOperationException, MissingDependencyMessage(normalizedFormat))))
    case Unsupported =>
      (fs, Err(Error(UnsupportedOperationException, UnsupportedFormatMessage(format))))
  }

  /** The converter, with the result of the one-time classpath probe for
      ByteDeco's `avcodec` class. */
  class AudioConverter {
    const byteDecoAvailable: bool

    /** The static initialiser: `byteDecoFound` is whether the probe found the class. */
    constructor(byteDecoFound: bool)
      ensures IsByteDecoAvailable() == byteDecoFound
    {
      byteDecoAvailable := byteDecoFound;
    }

    function IsByteDecoAvailable(): bool {
      byteDecoAvailable
    }

    /** `convertToWav`: lower-cases the format and runs the branch it selects. */
    method ConvertToWav(fs: FileSystem, codecs: Codecs, inputPath: string, outputPath: string, format: string)
      returns (fs': FileSystem, r: Result<()>)
      ensures (fs', r) == Conversion(IsByteDecoAvailable(), fs, codecs, inputPath, outputPath, format)
    {
      var normalizedFormat := ToLower(format);
      match RouteOf(normalizedFormat)
      case Copy =>
        if inputPath !in fs {
          fs', r := fs, Err(Error(IOException, inputPath));
        } else {
          fs', r := fs[outputPath := fs[inputPath]], Ok(());
        }
      case Mp3Decoder =>
        var decoded;
        fs', decoded := Mp3ToWavConverter.ConvertMp3ToWav(fs, codecs, inputPath, outputPath);
        r := RewrapMp3Failure(decoded);
      case ExtendedDecoder =>
        if byteDecoAvailable {
          var freed, held;
          fs', r, freed, held := ByteDecoConverter.ConvertToWav(fs, codecs, inputPath, outputPath);
        } else {
          fs', r := fs, Err(Error(UnsupportedOperationException, MissingDependencyMessage(normalizedFormat)));
        }
      case Unsupported =>
        fs', r := fs, Err(Error(UnsupportedOperationException, UnsupportedFormatMessage(format)));
    }
  }

  // ------------------------------------------------------------ properties

  /** Formats that differ only in letter case are converted alike; only the
      message of an unsupported format echoes the spelling it was given. */
  lemma CaseInsensitive(flag: bool, fs: FileSystem, codecs: Codecs, inputPath: string, outputPath: string,
                        format: string, other: string)
    requires ToLower(format) == ToLower(other)
    ensures RouteOf(ToLower(format)) != Unsupported ==>
      Conversion(flag, fs, codecs, inputPath, outputPath, format) == Conversion(flag, fs, codecs, inputPath, outputPath, other)
    ensures RouteOf(ToLower(format)) == Unsupported ==>
      Conversion(flag, fs, codecs, inputPath, outputPath, format).0 == Conversion(flag, fs, codecs, inputPath, outputPath, other).0
  {
  }

  /** An unrecognised format is refused before the input is looked at: the
      outcome is the same whether or not the input exists, nothing is
      written, and the message lists the supported formats. */
  lemma UnsupportedRejectedFirst(flag: bool, fs: FileSystem, codecs: Codecs, inputPath: string,
                                 outputPath: string, format: string)
    requires RouteOf(ToLower(format)) == Unsupported
    ensures var (fs', r) := Conversion(flag, fs, codecs, inputPath, outputPath, format);
      fs' == fs && r.Err? && r.error.kind == UnsupportedOperationException &&
      StartsWith(r.error.message, "Unsupported audio format: " + format) &&
      Contains(r.error.message, SupportedFormatsText)
    ensures Conversion(flag, fs, codecs, inputPath, outputPath, format) ==
      Conversion(flag, map[], codecs, inputPath, outputPath, format).(0 := fs)
  {
  }

  /** The extended formats reach the FFmpeg decoder exactly when ByteDeco is
      available; without it they fail with the dependency message and write
      nothing. */
  lemma ExtendedFormatsNeedByteDeco(flag: bool, fs: FileSystem, codecs: Codecs, inputPath: string,
                                    outputPath: string, format: string)
    requires RouteOf(ToLower(format)) == ExtendedDecoder
    ensures flag ==>
      Conversion(flag, fs, codecs, inputPath, outputPath, format) == ByteDecoConverter.Conversion(fs, codecs, inputPath, outputPath)
    ensures !flag ==> var (fs', r) := Conversion(flag, fs, codecs, inputPath, outputPath, format);
      fs' == fs && r.Err? && r.error.kind == UnsupportedOperationException &&
      StartsWith(r.error.message, ToUpper(ToLower(format))) && Contains(r.error.message, GroupId)
  {
    if !flag {
      var message := MissingDependencyMessage(ToLower(format));
      assert Conversion(flag, fs, codecs, inputPath, outputPath, format) ==
        (fs, Err(Error(UnsupportedOperationException, message)));
    }
  }

  /** "wav" copies the input byte for byte and runs no decoder. */
  lemma WavIsCopied(flag: bool, fs: FileSystem, codecs: Codecs, inputPath: string, outputPath: string, format: string)
    requires ToLower(format) == "wav"
    ensures inputPath in fs ==> Conversion(flag, fs, codecs, inputPath, outputPath, format) == (fs[outputPath := fs[inputPath]], Ok(()))
    ensures inputPath !in fs ==> Conversion(flag, fs, codecs, inputPath, outputPath, format) == (fs, Err(Error(IOException, inputPath)))
  {
  }

  /** "mp3" always uses JLayer, whatever the flag, and its failures are
      never an `UnsupportedAudioFileException`. */
  lemma Mp3IgnoresFlag(fs: FileSystem, codecs: Codecs, inputPath: string, outputPath: string, format: string)
    requires ToLower(format) == "mp3"
    ensures Conversion(true, fs, codecs, inputPath, outputPath, format) == Conversion(false, fs, codecs, inputPath, outputPath, format)
    ensures Conversion(true, fs, codecs, inputPath, outputPath, format).0 == Mp3ToWavConverter.Conversion(fs, codecs, inputPath, outputPath).0
    ensures var r := Conversion(true, fs, codecs, inputPath, outputPath, format).1;
      r.Err? ==> r.error.kind != UnsupportedAudioFileException
  {
  }
}
