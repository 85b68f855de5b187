/**
  The world the converters and readers run in: a file system of byte
  strings, and what each foreign audio library makes of a byte string.
  JLayer, FFmpeg and Java Sound are not modelled; each appears as a total
  function from file contents to the values the connector's code reads off
  them, collected in a `Codecs` record that every operation receives.
 */
module Media {
  import opened Common
  import opened Strings
  import opened Pcm

  /** Files by path. A missing key is a file that does not exist. */
  type FileSystem = map<string, seq<Byte>>

  // ---------------------------------------------------------------- JLayer

  type ChannelCount = c: int | 1 <= c <= 2 witness 1

  /** One decoded MP3 frame: the header's frequency and the decoder's
      sample buffer (interleaved when stereo). */
  datatype Mp3Frame = Mp3Frame(frequency: int, channelCount: ChannelCount, samples: seq<Short>)

  /** JLayer's reading of a byte stream: the frames it decodes in order, and
      whether a `JavaLayerException` interrupts the reading after them. */
  datatype Mp3Decoding = Mp3Decoding(frames: seq<Mp3Frame>, interrupted: bool)

  // ---------------------------------------------------------------- FFmpeg

  /** A stream of a container: whether its codec type is audio, and whether
      `avcodec_find_decoder` finds a decoder for its codec id. */
  datatype StreamInfo = StreamInfo(isAudio: bool, hasDecoder: bool)

  /** One `swr_convert` call: the sample count it reports, and the bytes of
      the resampled frame's first data plane. */
  datatype Resampled = Resampled(outSamples: int, plane: seq<Byte>)

  /** How `avcodec_receive_frame` ends a packet's frames: EAGAIN or EOF
      (`Drained`), or any other negative code. */
  datatype ReceiveEnd = Drained | DecodeError

  /** One packet from `av_read_frame`: its stream index, whether
      `avcodec_send_packet` accepts it, the frames then received (each
      already resampled) and how the receiving ends. */
  datatype Packet = Packet(streamIndex: int, accepted: bool, frames: seq<Resampled>, end: ReceiveEnd)

  /** What FFmpeg does with a file, step by step: whether it opens, whether
      stream information is found, the streams, whether parameters copy,
      whether the codec opens and the resampler initialises, the packets
      read, and the frames the flushed decoder still yields. */
  datatype MediaSession = MediaSession(
    opens: bool,
    streamInfoFound: bool,
    streams: seq<StreamInfo>,
    parametersCopy: bool,
    codecOpens: bool,
    resamplerInits: bool,
    packets: seq<Packet>,
    flushed: seq<Resampled>)

  // ------------------------------------------------------------ Java Sound

  /** `AudioSystem.getAudioInputStream(file)`: an audio stream with its format
      and the bytes it delivers, or `NotAudio` for an
      `UnsupportedAudioFileException`. */
  datatype WaveReading = NotAudio | Wave(format: PcmFormat, data: seq<Byte>)

  /** The foreign libraries, as functions of a file's bytes.
      - `jlayer`: the MP3 decoder's frames;
      - `ffmpeg`: the FFmpeg session on the file;
      - `javaSound`: the stream Java Sound opens on the file;
      - `convert`: `AudioSystem.getAudioInputStream(target, stream)` read to the
        end, or `None` where Java Sound rejects the conversion;
      - `waveFile`: the bytes `AudioSystem.write(..., WAVE, ...)` produces for a
        PCM format and its data;
      - `ffmpegCli`: the WAVE file the `ffmpeg` command line makes of a file,
        or `None` where the command fails. */
  datatype Codecs = Codecs(
    jlayer: seq<Byte> -> Mp3Decoding,
    ffmpeg: seq<Byte> -> MediaSession,
    javaSound: seq<Byte> -> WaveReading,
    convert: (PcmFormat, seq<Byte>, PcmFormat) -> Option<seq<Byte>>,
    waveFile: (PcmFormat, seq<Byte>) -> seq<Byte>,
    ffmpegCli: seq<Byte> -> Option<seq<Byte>>)

  /** Java Sound reads back the format and data of every WAVE file it wrote.
      Used only as a hypothesis of end-to-end lemmas. */
  ghost predicate ReadsBackWhatItWrites(c: Codecs) {
    forall f: PcmFormat, d: seq<Byte> {:trigger c.waveFile(f, d)} :: c.javaSound(c.waveFile(f, d)) == Wave(f, d)
  }

  /** The `FileNotFoundException` of opening a path that does not exist. */
  function FileNotFound(path: string): Throwable {
    Error(IOException, path + " (No such file or directory)")
  }

  // ----------------------------------------------------------------- paths

  /** `new File(path).getParent()`: everything before the last '/', "/" for
      a file in the root, or nothing for a bare name. */
  function Parent(path: string): (p: Option<string>)
    ensures p.Some? <==> LastIndexOf(path, '/') >= 0
  {
    var k := LastIndexOf(path, '/');
    if k < 0 then None else if k == 0 then Some("/") else Some(path[..k])
  }

  /** `new File(parent, child)` for a child name without '/'. */
  function Child(parent: Option<string>, child: string): (path: string)
    ensures EndsWith(path, child)
  {
    match parent
    case None => child
    case Some(d) => if d != [] && d[|d| - 1] == '/' then d + child else d + "/" + child
  }

  /** `File.getAbsolutePath()` relative to the working directory `cwd`. */
  function AbsolutePath(cwd: string, path: string): (abs: string)
    ensures EndsWith(abs, path)
  {
    if StartsWith(path, "/") then path else Child(Some(cwd), path)
  }
}
