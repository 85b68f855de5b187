/**
  The older media-type classification (helpers/AudioUtils): the same WAV
  test, and an extension guess that falls back to "mp3" and does not list
  audio/x-m4a, audio/mpeg or audio/mp3.
 */
module HelpersAudioUtils {
  import opened Common
  import AudioUtils

  predicate IsWav(m: MediaType) {
    match m.WithoutParameters()
    case "audio/wav" | "audio/vnd.wav" | "audio/vnd.wave" | "audio/wave" | "audio/x-wav" | "audio/x-pn-wav" => true
    case _ => false
  }

  /** The extension for a media type; anything unlisted keeps the default "mp3". */
  function GuessAudioFileExtension(m: MediaType): (ext: string)
    ensures ext in {"m4a", "flac", "wav", "ogg", "weba", "aac", "mp3"}
    ensures ext == "wav" <==> IsWav(m)
  {
    var extension := "mp3";
    match m.WithoutParameters()
    case "audio/m4a" | "audio/mp4" => "m4a"
    case "audio/flac" | "audio/x-flac" => "flac"
    case "audio/wav" | "audio/vnd.wav" | "audio/vnd.wave" | "audio/wave" | "audio/x-wav" | "audio/x-pn-wav" => "wav"
    case "audio/ogg" => "ogg"
    case "audio/webm" => "weba"
    case "audio/aac" => "aac"
    case _ => extension
  }

  /** Both WAV tests accept exactly the same media types. */
  lemma IsWavAgrees(m: MediaType)
    ensures IsWav(m) <==> AudioUtils.IsWav(m)
    ensures IsWav(m) <==> m.WithoutParameters() in AudioUtils.WavTypes
  {
  }

  /** The guess never reports "unknown": it is total with "mp3" as fallback,
      and audio/x-m4a falls back to it where the other variant says "m4a". */
  lemma FallsBackToMp3(m: MediaType)
    ensures GuessAudioFileExtension(m) != "unknown"
    ensures m.WithoutParameters() !in AudioUtils.KnownTypes ==> GuessAudioFileExtension(m) == "mp3"
    ensures m.WithoutParameters() == "audio/x-m4a" ==>
      GuessAudioFileExtension(m) == "mp3" && AudioUtils.GuessAudioFileExtension(m) == "m4a"
    ensures m.WithoutParameters() == "audio/webm" ==> GuessAudioFileExtension(m) == "weba"
    ensures m.WithoutParameters() == "audio/mp4" ==> GuessAudioFileExtension(m) == "m4a"
  {
  }

  /** Relation between the two variants: they agree wherever the other
      variant recognises the type, except on audio/x-m4a, where this one
      falls back to "mp3"; audio/mpeg and audio/mp3 happen to agree only
      because of that fallback. */
  lemma RelatesToFormatGuess(m: MediaType)
    ensures m.WithoutParameters() != "audio/x-m4a" ==>
      GuessAudioFileExtension(m) == AudioUtils.GuessAudioFormat(m).GetOr("mp3")
  {
  }
}
