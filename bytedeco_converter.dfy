/**
  `ByteDecoConverter.convertToWav`: decodes the first audio stream of a
  container with FFmpeg, resamples it to mono 16 kHz 16-bit PCM, and writes
  the samples as a WAVE file. The FFmpeg session is an input (see `Media`);
  what is modelled is the control flow around it: which stream is chosen,
  which packets and frames contribute samples, how chunks are combined and
  encoded, how failures are reported, and which native handles are freed.
 */
module ByteDecoConverter {
  import opened Common
  import opened Strings
  import opened Pcm
  import opened Media

  const TargetSampleRate := 16000
  const TargetChannels := 1

  /** The format of the written file. */
  const OutputFormat: PcmFormat := PcmFormat(TargetSampleRate, 16, TargetChannels, true, false)

  const FailurePrefix := "Failed to convert audio file using ByteDeco FFmpeg: "

  /** The native objects of a conversion. */
  datatype Handle = FormatContext | CodecContext | SwrContext | DecodedFrame | ResampledFrame | PacketBuffer

  /** Which of the six handle variables are non-null. */
  datatype HandleVars = HandleVars(
    formatContext: bool, codecContext: bool, swrContext: bool,
    frame: bool, resampledFrame: bool, packet: bool)
  {
    predicate IsSet(h: Handle) {
      match h
      case FormatContext => formatContext
      case CodecContext => codecContext
      case SwrContext => swrContext
      case DecodedFrame => frame
      case ResampledFrame => resampledFrame
      case PacketBuffer => packet
    }

    /** Handles are set in the order of the steps that allocate them: the
        format context first, then the codec context, the resampler, and
        the two frames with the packet together. */
    predicate InAllocationOrder() {
      formatContext &&
      (codecContext ==> formatContext) &&
      (swrContext ==> codecContext) &&
      (frame == resampledFrame == packet) &&
      (frame ==> swrContext)
    }
  }

  const NoneSet := HandleVars(false, false, false, false, false, false)
  const AllSet := HandleVars(true, true, true, true, true, true)

  /** A handle freed when its variable is set. */
  function FreeIfSet(set_: bool, h: Handle): seq<Handle> {
    if set_ then [h] else []
  }

  /** The `finally` block: frees, in its fixed order, each handle that is set. */
  function Release(v: HandleVars): seq<Handle> {
    FreeIfSet(v.packet, PacketBuffer) + FreeIfSet(v.frame, DecodedFrame) +
    FreeIfSet(v.resampledFrame, ResampledFrame) + FreeIfSet(v.swrContext, SwrContext) +
    FreeIfSet(v.codecContext, CodecContext) + FreeIfSet(v.formatContext, FormatContext)
  }

  /** The FFmpeg session on a path; a missing file does not open. */
  function SessionOf(fs: FileSystem, codecs: Codecs, path: string): MediaSession {
    if path in fs then codecs.ffmpeg(fs[path]) else MediaSession(false, false, [], false, false, false, [], [])
  }

  // ----------------------------------------------------- step 3: the stream

  /** The index of the first audio stream, or -1 when there is none. */
  function FirstAudioStream(streams: seq<StreamInfo>): (index: int)
    ensures -1 <= index < |streams|
    ensures index == -1 <==> forall i :: 0 <= i < |streams| ==> !streams[i].isAudio
    ensures index >= 0 ==> streams[index].isAudio && forall i :: 0 <= i < index ==> !streams[i].isAudio
  {
    if streams == [] then -1
    else if streams[0].isAudio then 0
    else var rest := FirstAudioStream(streams[1..]); if rest == -1 then -1 else rest + 1
  }

  /** The stream loop of step 3. */
  method FindAudioStream(streams: seq<StreamInfo>) returns (audioStreamIndex: int)
    ensures audioStreamIndex == FirstAudioStream(streams)
  {
    audioStreamIndex := -1;
    var i := 0;
    while i < |streams|
      invariant 0 <= i <= |streams|
      invariant forall j :: 0 <= j < i ==> !streams[j].isAudio
    {
      if streams[i].isAudio {
        audioStreamIndex := i;
        break;
      }
      i := i + 1;
    }
  }

  // ------------------------------------------------ step 9: the samples

  /** The shorts of one resampled frame: `outSamples` of them, read little-endian
      from the frame's first plane. */
  function ChunkOf(f: Resampled): (chunk: seq<Short>)
    requires f.outSamples > 0
    ensures |chunk| == f.outSamples
  {
    DecodeLE(Fill(f.plane, 2 * f.outSamples))
  }

  /** The chunks a run of received frames contributes: one per frame that
      produced samples. */
  function FrameChunks(frames: seq<Resampled>): seq<seq<Short>> {
    if frames == [] then []
    else
      var last := frames[|frames| - 1];
      FrameChunks(frames[..|frames| - 1]) + (if last.outSamples > 0 then [ChunkOf(last)] else [])
  }

  /** Whether a packet is sent to the decoder at all. */
  predicate Decoded(p: Packet, audioStreamIndex: int) {
    p.streamIndex == audioStreamIndex && p.accepted
  }

  function PacketChunks(p: Packet, audioStreamIndex: int): seq<seq<Short>> {
    if Decoded(p, audioStreamIndex) then FrameChunks(p.frames) else []
  }

  /** The chunks of all packets, in reading order. */
  function PacketsChunks(packets: seq<Packet>, audioStreamIndex: int): seq<seq<Short>> {
    if packets == [] then []
    else PacketsChunks(packets[..|packets| - 1], audioStreamIndex) + PacketChunks(packets[|packets| - 1], audioStreamIndex)
  }

  /** Decoding fails when some decoded packet ends its frames with an error. */
  predicate DecodingFails(packets: seq<Packet>, audioStreamIndex: int) {
    exists k :: 0 <= k < |packets| && Decoded(packets[k], audioStreamIndex) && packets[k].end == DecodeError
  }

  /** The inner receive loop, and the flush loop: append the chunk of every
      frame that produced samples, keeping `totalSamples` the total length. */
  method AppendFrames(frames: seq<Resampled>, audioData: seq<seq<Short>>, totalSamples: int)
    returns (audioData': seq<seq<Short>>, totalSamples': int)
    requires totalSamples == TotalLength(audioData)
    ensures audioData' == audioData + FrameChunks(frames)
    ensures totalSamples' == TotalLength(audioData')
  {
    audioData', totalSamples' := audioData, totalSamples;
    var j := 0;
    while j < |frames|
      invariant 0 <= j <= |frames|
      invariant audioData' == audioData + FrameChunks(frames[..j])
      invariant totalSamples' == TotalLength(audioData')
    {
      var frame := frames[j];
      assert frames[..j + 1][..j] == frames[..j];
      if frame.outSamples > 0 {
        var samples := ChunkOf(frame);
        AppendChunk(audioData', samples);
        audioData' := audioData' + [samples];
        totalSamples' := totalSamples' + frame.outSamples;
      }
      assert audioData + FrameChunks(frames[..j + 1]) == audioData + FrameChunks(frames[..j]) + (if frame.outSamples > 0 then [ChunkOf(frame)] else []);
      j := j + 1;
    }
    assert frames[..j] == frames;
  }

  lemma AppendChunk(chunks: seq<seq<Short>>, chunk: seq<Short>)
    ensures TotalLength(chunks + [chunk]) == TotalLength(chunks) + |chunk|
  {
    assert (chunks + [chunk])[..|chunks|] == chunks;
  }

  /** The read loop of step 9. Packets of other streams and packets the
      decoder refuses are skipped; a receive error other than EAGAIN/EOF
      ends decoding with a failure. */
  method DecodePackets(packets: seq<Packet>, audioStreamIndex: int)
    returns (audioData: seq<seq<Short>>, totalSamples: int, failed: bool)
    ensures failed == DecodingFails(packets, audioStreamIndex)
    ensures !failed ==> audioData == PacketsChunks(packets, audioStreamIndex)
    ensures totalSamples == TotalLength(audioData)
  {
    audioData, totalSamples, failed := [], 0, false;
    var k := 0;
    while k < |packets|
      invariant 0 <= k <= |packets|
      invariant audioData == PacketsChunks(packets[..k], audioStreamIndex)
      invariant totalSamples == TotalLength(audioData)
      invariant !DecodingFails(packets[..k], audioStreamIndex)
    {
      var packet := packets[k];
      assert packets[..k + 1][..k] == packets[..k];
      if packet.streamIndex == audioStreamIndex {
        if !packet.accepted {
          k := k + 1;
          NoNewFailure(packets, k - 1, audioStreamIndex);
          continue;
        }
        audioData, totalSamples := AppendFrames(packet.frames, audioData, totalSamples);
        if packet.end == DecodeError {
          failed := true;
          assert packets[k] == packet;
          return;
        }
      }
      k := k + 1;
      NoNewFailure(packets, k - 1, audioStreamIndex);
    }
    assert packets[..k] == packets;
  }

  lemma NoNewFailure(packets: seq<Packet>, k: nat, audioStreamIndex: int)
    requires k < |packets|
    requires !DecodingFails(packets[..k], audioStreamIndex)
    requires !(Decoded(packets[k], audioStreamIndex) && packets[k].end == DecodeError)
    ensures !DecodingFails(packets[..k + 1], audioStreamIndex)
  {
    var prefix := packets[..k + 1];
    forall i | 0 <= i < |prefix| && Decoded(prefix[i], audioStreamIndex)
      ensures prefix[i].end != DecodeError
    {
      if i < k {
        assert prefix[i] == packets[..k][i];
      }
    }
  }

  // ------------------------------------------------- steps 10 and 11

  /** Step 10: every chunk copied to its offset in one array of `totalSamples`. */
  method Combine(audioData: seq<seq<Short>>, totalSamples: int) returns (allSamples: array<Short>)
    requires totalSamples == TotalLength(audioData)
    ensures allSamples.Length == totalSamples
    ensures allSamples[..] == Concat(audioData)
  {
    allSamples := new Short[totalSamples];
    var offset := 0;
    var k := 0;
    while k < |audioData|
      invariant 0 <= k <= |audioData|
      invariant offset == TotalLength(audioData[..k]) <= totalSamples
      invariant allSamples[..offset] == Concat(audioData[..k])
    {
      var chunk := audioData[k];
      TotalLengthOfPrefix(audioData, k);
      forall j | 0 <= j < |chunk| {
        allSamples[offset + j] := chunk[j];
      }
      assert audioData[..k + 1][..k] == audioData[..k];
      assert allSamples[..offset + |chunk|] == allSamples[..offset] + chunk;
      offset := offset + |chunk|;
      k := k + 1;
    }
    assert audioData[..k] == audioData;
    assert allSamples[..] == allSamples[..offset];
  }

  // --------------------------------------------------------- the whole

  /** The message of the step that fails for a session, if any. */
  function StepFailure(s: MediaSession, inputPath: string): (message: Option<string>)
    ensures !s.opens ==> message == Some("Could not open input file: " + inputPath)
  {
    if !s.opens then Some("Could not open input file: " + inputPath)
    else if !s.streamInfoFound then Some("Could not find stream information")
    else if FirstAudioStream(s.streams) == -1 then Some("Could not find audio stream in file")
    else if !s.streams[FirstAudioStream(s.streams)].hasDecoder then Some("Unsupported audio codec")
    else if !s.parametersCopy then Some("Could not copy codec parameters to context")
    else if !s.codecOpens then Some("Could not open codec")
    else if !s.resamplerInits then Some("Could not initialize resampler")
    else if DecodingFails(s.packets, FirstAudioStream(s.streams)) then Some("Error during decoding")
    else None
  }

  /** The handle variables that are set when the `try` body is left: those
      allocated by the steps before the one that fails, and all six when no
      step fails. */
  function HeldAt(s: MediaSession): (held: HandleVars)
    ensures held.InAllocationOrder()
    ensures held.formatContext
    ensures held.codecContext <==>
      s.opens && s.streamInfoFound && FirstAudioStream(s.streams) != -1 && s.streams[FirstAudioStream(s.streams)].hasDecoder
    ensures held.swrContext <==> held.codecContext && s.parametersCopy && s.codecOpens
    ensures held.packet <==> held.swrContext && s.resamplerInits
  {
    if !s.opens || !s.streamInfoFound || FirstAudioStream(s.streams) == -1
       || !s.streams[FirstAudioStream(s.streams)].hasDecoder then
      NoneSet.(formatContext := true)
    else if !s.parametersCopy || !s.codecOpens then
      NoneSet.(formatContext := true, codecContext := true)
    else if !s.resamplerInits then
      NoneSet.(formatContext := true, codecContext := true, swrContext := true)
    else
      AllSet
  }

  /** The samples of a session that decodes: the chunks of its packets, then
      the chunks the flushed decoder yields. */
  function SessionChunks(s: MediaSession): seq<seq<Short>> {
    PacketsChunks(s.packets, FirstAudioStream(s.streams)) + FrameChunks(s.flushed)
  }

  /** The file system and outcome of `convertToWav(inputPath, outputPath)`. */
  function Conversion(fs: FileSystem, codecs: Codecs, inputPath: string, outputPath: string): (FileSystem, Result<()>) {
    var s := SessionOf(fs, codecs, inputPath);
    match StepFailure(s, inputPath)
    case Some(message) => (fs, Err(Wrapping(IOException, FailurePrefix + message, Error(IOException, message))))
    case None => (fs[outputPath := codecs.waveFile(OutputFormat, EncodeLE(Concat(SessionChunks(s))))], Ok(()))
  }

  /** Steps 1 to 11, the body of the `try`: the message of the exception a
      step throws, or the little-endian bytes of all samples; and the handle
      variables that are set when the body is left. */
  method Attempt(s: MediaSession, inputPath: string)
    returns (exception: Option<string>, audioBytes: seq<Byte>, held: HandleVars)
    ensures exception == StepFailure(s, inputPath)
    ensures exception.None? ==> audioBytes == EncodeLE(Concat(SessionChunks(s))) && held == AllSet
    ensures held == HeldAt(s)
    ensures held.InAllocationOrder()
  {
    audioBytes := [];
    held := NoneSet.(formatContext := true);
    if !s.opens {
      return Some("Could not open input file: " + inputPath), audioBytes, held;
    }
    if !s.streamInfoFound {
      return Some("Could not find stream information"), audioBytes, held;
    }
    var audioStreamIndex := FindAudioStream(s.streams);
    if audioStreamIndex == -1 {
      return Some("Could not find audio stream in file"), audioBytes, held;
    }
    if !s.streams[audioStreamIndex].hasDecoder {
      return Some("Unsupported audio codec"), audioBytes, held;
    }
    held := held.(codecContext := true);
    if !s.parametersCopy {
      return Some("Could not copy codec parameters to context"), audioBytes, held;
    }
    if !s.codecOpens {
      return Some("Could not open codec"), audioBytes, held;
    }
    held := held.(swrContext := true);
    if !s.resamplerInits {
      return Some("Could not initialize resampler"), audioBytes, held;
    }
    held := held.(frame := true, resampledFrame := true, packet := true);
    var audioData, totalSamples, failed := DecodePackets(s.packets, audioStreamIndex);
    if failed {
      return Some("Error during decoding"), audioBytes, held;
    }
    audioData, totalSamples := AppendFrames(s.flushed, audioData, totalSamples);
    var allSamples := Combine(audioData, totalSamples);
    audioBytes := EncodeLE(allSamples[..]);
    exception := None;
  }

  /** `convertToWav`: the `try` body, step 12's write of the WAVE file, the
      `catch` that wraps every failure, and the `finally` that frees every
      handle that was set. */
  method ConvertToWav(fs: FileSystem, codecs: Codecs, inputPath: string, outputPath: string)
    returns (fs': FileSystem, r: Result<()>, freed: seq<Handle>, held: HandleVars)
    ensures (fs', r) == Conversion(fs, codecs, inputPath, outputPath)
    ensures freed == Release(held)
    ensures held == HeldAt(SessionOf(fs, codecs, inputPath))
    ensures held.InAllocationOrder()
    ensures r.Ok? ==> held == AllSet
  {
    var s := SessionOf(fs, codecs, inputPath);
    var exception, audioBytes;
    exception, audioBytes, held := Attempt(s, inputPath);
    if exception.Some? {
      var e := Error(IOException, exception.value);
      fs', r := fs, Err(Wrapping(IOException, FailurePrefix + e.message, e));
    } else {
      var audioFormat := PcmFormat(TargetSampleRate, 16, TargetChannels, true, false);
      fs', r := fs[outputPath := codecs.waveFile(audioFormat, audioBytes)], Ok(());
    }
    freed := Release(held);
  }

  // ------------------------------------------------------------ properties

  /** Every failure is one `IOException` carrying the prefix and wrapping the
      step's own `IOException`; a failed conversion writes nothing. */
  lemma FailuresAreWrappedIOExceptions(fs: FileSystem, codecs: Codecs, inputPath: string, outputPath: string)
    ensures var (fs', r) := Conversion(fs, codecs, inputPath, outputPath);
      r.Err? ==>
        fs' == fs && r.error.kind == IOException && StartsWith(r.error.message, FailurePrefix) &&
        r.error.cause.Some? && r.error.cause.value.kind == IOException &&
        r.error.message == FailurePrefix + r.error.cause.value.message
  {
  }

  /** A successful conversion writes a mono 16 kHz 16-bit signed
      little-endian WAVE file whose data, decoded little-endian, is the
      in-order concatenation of the chunks, two bytes per sample. */
  lemma OutputIsTargetPcm(fs: FileSystem, codecs: Codecs, inputPath: string, outputPath: string)
    ensures var (fs', r) := Conversion(fs, codecs, inputPath, outputPath);
      var chunks := SessionChunks(SessionOf(fs, codecs, inputPath));
      r.Ok? ==>
        fs' == fs[outputPath := codecs.waveFile(Target, EncodeLE(Concat(chunks)))] &&
        |EncodeLE(Concat(chunks))| == 2 * TotalLength(chunks) &&
        DecodeLE(EncodeLE(Concat(chunks))) == Concat(chunks)
  {
    var chunks := SessionChunks(SessionOf(fs, codecs, inputPath));
    DecodeEncode(Concat(chunks));
  }

  /** A chunk is appended only for a frame that produced samples: no chunk
      is empty, and each is the little-endian reading of its frame. */
  lemma {:induction false} ChunksAreNonEmpty(frames: seq<Resampled>)
    ensures forall c :: c in FrameChunks(frames) ==> |c| > 0
    ensures |FrameChunks(frames)| <= |frames|
  {
    if frames != [] {
      ChunksAreNonEmpty(frames[..|frames| - 1]);
    }
  }

  /** A packet of another stream, or one the decoder refuses, neither adds
      samples nor makes decoding fail. */
  lemma SkippedPacket(packets: seq<Packet>, p: Packet, audioStreamIndex: int)
    requires !Decoded(p, audioStreamIndex)
    ensures PacketsChunks(packets + [p], audioStreamIndex) == PacketsChunks(packets, audioStreamIndex)
    ensures DecodingFails(packets + [p], audioStreamIndex) == DecodingFails(packets, audioStreamIndex)
  {
    var all := packets + [p];
    assert all[..|all| - 1] == packets;
    if DecodingFails(packets, audioStreamIndex) {
      var k :| 0 <= k < |packets| && Decoded(packets[k], audioStreamIndex) && packets[k].end == DecodeError;
      assert all[k] == packets[k];
    }
  }

  /** The `finally` block frees every handle that was set exactly once,
      and no other. */
  lemma ReleaseFreesEachOnce(v: HandleVars)
    ensures forall h :: multiset(Release(v))[h] == if v.IsSet(h) then 1 else 0
  {
    forall h
      ensures multiset(Release(v))[h] == if v.IsSet(h) then 1 else 0
    {
      ReleaseCount(v, h);
    }
  }

  /** How often `Release` lists a handle, term by term. */
  lemma ReleaseCount(v: HandleVars, h: Handle)
    ensures multiset(Release(v))[h] ==
      (if v.packet && h == PacketBuffer then 1 else 0) + (if v.frame && h == DecodedFrame then 1 else 0) +
      (if v.resampledFrame && h == ResampledFrame then 1 else 0) + (if v.swrContext && h == SwrContext then 1 else 0) +
      (if v.codecContext && h == CodecContext then 1 else 0) + (if v.formatContext && h == FormatContext then 1 else 0)
  {
  }
}
