/**
  Media-type classification used by the extension's local connection
  (helpers/audio/AudioUtils): a WAV test, a format guess that may find
  nothing, and the file extension derived from that guess.
 */
module AudioUtils {
  import opened Common

  /** The six media types accepted as WAV. */
  const WavTypes: set<string> :=
    {"audio/wav", "audio/vnd.wav", "audio/vnd.wave", "audio/wave", "audio/x-wav", "audio/x-pn-wav"}

  /** Every media type the format guess recognises. */
  const KnownTypes: set<string> :=
    WavTypes + {"audio/m4a", "audio/x-m4a", "audio/mp4", "audio/flac", "audio/x-flac",
                "audio/ogg", "audio/webm", "audio/aac", "audio/mp3", "audio/mpeg"}

  predicate IsWav(m: MediaType) {
    match m.WithoutParameters()
    case "audio/wav" | "audio/vnd.wav" | "audio/vnd.wave" | "audio/wave" | "audio/x-wav" | "audio/x-pn-wav" => true
    case _ => false
  }

  /** The format tag of a media type, or `None` where the source returns null. */
  function GuessAudioFormat(m: MediaType): (r: Option<string>)
    ensures r.Some? <==> m.WithoutParameters() in KnownTypes
    ensures r == Some("wav") <==> IsWav(m)
    ensures r.Some? ==> r.value in {"m4a", "flac", "wav", "ogg", "weba", "aac", "mp3"}
  {
    match m.WithoutParameters()
    case "audio/m4a" | "audio/x-m4a" | "audio/mp4" => Some("m4a")
    case "audio/flac" | "audio/x-flac" => Some("flac")
    case "audio/wav" | "audio/vnd.wav" | "audio/vnd.wave" | "audio/wave" | "audio/x-wav" | "audio/x-pn-wav" => Some("wav")
    case "audio/ogg" => Some("ogg")
    case "audio/webm" => Some("weba")
    case "audio/aac" => Some("aac")
    case "audio/mp3" | "audio/mpeg" => Some("mp3")
    case _ => None
  }

  /** The guessed format, or "unknown" when there is none. */
  function GuessAudioFileExtension(m: MediaType): (ext: string)
    ensures GuessAudioFormat(m).Some? ==> ext == GuessAudioFormat(m).value
    ensures GuessAudioFormat(m).None? ==> ext == "unknown"
  {
    GuessAudioFormat(m).GetOr("unknown")
  }

  /** `IsWav` holds exactly for the six WAV media types. */
  lemma IsWavExactly(m: MediaType)
    ensures IsWav(m) <==> m.WithoutParameters() in WavTypes
  {
  }

  /** The table of `GuessAudioFormat`, entry by entry. */
  lemma GuessAudioFormatTable(m: MediaType)
    ensures m.WithoutParameters() in {"audio/m4a", "audio/x-m4a", "audio/mp4"} <==> GuessAudioFormat(m) == Some("m4a")
    ensures m.WithoutParameters() in {"audio/flac", "audio/x-flac"} <==> GuessAudioFormat(m) == Some("flac")
    ensures m.WithoutParameters() == "audio/ogg" <==> GuessAudioFormat(m) == Some("ogg")
    ensures m.WithoutParameters() == "audio/webm" <==> GuessAudioFormat(m) == Some("weba")
    ensures m.WithoutParameters() == "audio/aac" <==> GuessAudioFormat(m) == Some("aac")
    ensures m.WithoutParameters() in {"audio/mp3", "audio/mpeg"} <==> GuessAudioFormat(m) == Some("mp3")
  {
  }

  /** Only the essence is consulted: media types that differ in their
      parameters alone are classified alike. */
  lemma ClassificationIgnoresParameters(m: MediaType, n: MediaType)
    requires m.WithoutParameters() == n.WithoutParameters()
    ensures IsWav(m) == IsWav(n)
    ensures GuessAudioFormat(m) == GuessAudioFormat(n)
    ensures GuessAudioFileExtension(m) == GuessAudioFileExtension(n)
  {
  }
}
