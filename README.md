# mac-whisperer, modelled in Dafny

mac-whisperer is a Mule connector that turns speech into text and text into speech. It has two generations:

- The first (`com.mule.whisperer`) talks to the OpenAI REST API through `HttpURLConnection` (`MuleChainVoiceOperations`), through an OpenAI connection, or through a local Whisper connection.
- The second (`org.mule.extension.whisperer`) has three parts:
  - an OpenAI connection that posts multipart transcription forms and JSON speech requests;
  - a local Whisper JNI connection that buffers the uploaded audio, converts it to 16 kHz mono WAV and runs the native engine on the samples;
  - a helper layer that sends each audio format to the right converter: copy for WAV, JLayer for MP3, and ByteDeco FFmpeg for M4A/AAC/FLAC/OGG/WEBM.

This project models the following:

- the media-type classification;
- the PCM layout and scaling;
- the WAVE reader and the MP3 and FFmpeg converters;
- the request building and response mapping of both OpenAI connections;
- the hand-written multipart body of the first-generation operations;
- the local connections' buffering, format dispatch, inference outcome and transcript assembly;
- the operations that hand futures to Mule's completion callback;
- the local model provider's start and stop, and the remote provider's model-path parameters.

Foreign libraries enter the model as function-valued parameters describing what they return:

- JLayer, Java Sound and FFmpeg (`Media.Codecs`);
- the native whisper engine (`LocalInference`);
- the HTTP client and the JSON text syntax (`Http`);
- the URL parser.

A Java future is modelled as a plain value: the success or the failure it completes with.

The modules follow the source files one for one. `Common`, `Strings`, `Pcm`, `Media`, `Http`, `OpenAiApi` and `LocalInference` hold what several files share.

Parts of the source that update state step by step are imperative Dafny. Each such method is proved against a specification function. These parts are:

- the sample and frame loops of the readers and converters;
- the buffer copy loops;
- the transcript `StringBuilder`;
- the `free` calls in `ByteDecoConverter`'s `finally` block;
- `JSONObject`, the connections and the providers, which are classes with fields.

## Model

| member | source | states |
|---|---|---|
| AudioUtils.GuessAudioFormat | src/main/java/org/mule/extension/whisperer/internal/helpers/audio/AudioUtils.java:32-67 | a format exactly for the sixteen listed media types (nothing, the source's `null`, for any other); "wav" exactly when `IsWav` holds; the format is one of m4a, flac, wav, ogg, weba, aac, mp3 |
| AudioUtils.GuessAudioFileExtension | src/main/java/org/mule/extension/whisperer/internal/helpers/audio/AudioUtils.java:27-30 | the guessed format when there is one, "unknown" otherwise |
| AudioUtils.IsWavExactly | src/main/java/org/mule/extension/whisperer/internal/helpers/audio/AudioUtils.java:11-25 | the WAV test accepts exactly the six WAV media types |
| AudioUtils.GuessAudioFormatTable | src/main/java/org/mule/extension/whisperer/internal/helpers/audio/AudioUtils.java:34-64 | each mapping in both directions: m4a/x-m4a/mp4 to m4a, flac/x-flac to flac, ogg, webm to weba, aac, mp3/mpeg to mp3 |
| AudioUtils.ClassificationIgnoresParameters | src/main/java/org/mule/extension/whisperer/internal/helpers/audio/AudioUtils.java:11-34 | two media types with the same essence get the same WAV test, format and extension |
| HelpersAudioUtils.GuessAudioFileExtension | src/main/java/org/mule/extension/whisperer/internal/helpers/AudioUtils.java:18-48 | always one of the seven extensions, and "wav" exactly when the WAV test holds |
| HelpersAudioUtils.IsWavAgrees | src/main/java/org/mule/extension/whisperer/internal/helpers/AudioUtils.java:6-17 | this WAV test accepts exactly the six media types the other variant accepts |
| HelpersAudioUtils.FallsBackToMp3 | src/main/java/org/mule/extension/whisperer/internal/helpers/AudioUtils.java:18-48 | never "unknown"; every type the other variant does not know gives "mp3"; audio/x-m4a gives "mp3" here and "m4a" there; webm gives "weba" and mp4 "m4a" |
| HelpersAudioUtils.RelatesToFormatGuess | src/main/java/org/mule/extension/whisperer/internal/helpers/AudioUtils.java:18-48 | outside audio/x-m4a the extension is the other variant's format guess with "mp3" in place of nothing |
| AudioConverter.RouteOf | src/main/java/org/mule/extension/whisperer/internal/helpers/audio/AudioConverter.java:67-117 | copy exactly for "wav", JLayer exactly for "mp3", the FFmpeg decoder exactly for m4a, aac, mp4, flac, ogg and webm |
| AudioConverter.MissingDependencyMessage | src/main/java/org/mule/extension/whisperer/internal/helpers/audio/AudioConverter.java:120-134 | the message begins with the upper-cased format and contains "org.bytedeco", "ffmpeg-platform" and "6.1.1-1.5.10" |
| AudioConverter.UnsupportedFormatMessage | src/main/java/org/mule/extension/whisperer/internal/helpers/audio/AudioConverter.java:113-116 | the message begins with "Unsupported audio format: " and the format as given, and lists the supported formats |
| AudioConverter.RewrapMp3Failure | src/main/java/org/mule/extension/whisperer/internal/helpers/audio/AudioConverter.java:80-85 | an `UnsupportedAudioFileException` becomes an `IOException` caused by it; success and other failures pass unchanged |
| AudioConverter.AudioConverter.constructor | src/main/java/org/mule/extension/whisperer/internal/helpers/audio/AudioConverter.java:29-42 | the availability flag is the outcome of the one-time class probe |
| AudioConverter.AudioConverter.ConvertToWav | src/main/java/org/mule/extension/whisperer/internal/helpers/audio/AudioConverter.java:62-118 | the new file system and outcome are those of `Conversion` for the converter's fixed flag |
| AudioConverter.CaseInsensitive | src/main/java/org/mule/extension/whisperer/internal/helpers/audio/AudioConverter.java:63-67 | formats equal up to letter case convert alike; an unsupported one leaves the same file system |
| AudioConverter.UnsupportedRejectedFirst | src/main/java/org/mule/extension/whisperer/internal/helpers/audio/AudioConverter.java:112-116 | an unrecognised format writes nothing, fails with `UnsupportedOperationException` and the supported-formats message, and does not depend on the file system |
| AudioConverter.ExtendedFormatsNeedByteDeco | src/main/java/org/mule/extension/whisperer/internal/helpers/audio/AudioConverter.java:88-110 | with the flag the extended formats are exactly the FFmpeg conversion; without it they write nothing and fail with the dependency message |
| AudioConverter.WavIsCopied | src/main/java/org/mule/extension/whisperer/internal/helpers/audio/AudioConverter.java:68-76 | "wav" copies the input to the output path, or fails naming the missing input |
| AudioConverter.Mp3IgnoresFlag | src/main/java/org/mule/extension/whisperer/internal/helpers/audio/AudioConverter.java:78-86 | "mp3" converts alike with or without ByteDeco, writes what JLayer writes; the decoder model has no way to signal `UnsupportedAudioFileException`, so that exception is not part of this statement |
| AudioFileReader.Samples | src/main/java/org/mule/extension/whisperer/internal/helpers/audio/AudioFileReader.java:48-57 | one sample per whole pair of buffered bytes, so half the byte count rounded down |
| AudioFileReader.ExtractSamples | src/main/java/org/mule/extension/whisperer/internal/helpers/audio/AudioFileReader.java:47-59 | the array has half the buffer's length, equals `Samples` of the buffer (sample i from the i-th little-endian short, scaled), and every sample lies in [-1, 1] |
| AudioFileReader.ConvertToMono16kHz | src/main/java/org/mule/extension/whisperer/internal/helpers/audio/AudioFileReader.java:62-87 | on success the output is "converted_16kHz_mono.wav" in the input's directory and holds a WAVE file of the 16 kHz mono target format; on failure nothing is written |
| AudioFileReader.ReadFile | src/main/java/org/mule/extension/whisperer/internal/helpers/audio/AudioFileReader.java:24-60 | the new file system and the samples or the exception are those of `ReadFileSpec`, including the "Unable to read audio file: " failure of an empty read and the re-read of a converted file |
| AudioFileReader.ConvertM4AToWavWithFFmpeg | src/main/java/org/mule/extension/whisperer/internal/helpers/audio/AudioFileReader.java:101-123 | success means the input exists, the command produced a file and only the output path changed; any failure writes nothing and is one `IOException` with the fixed message |
| AudioFileReader.SamplesComeFromMono16kHz | src/main/java/org/mule/extension/whisperer/internal/helpers/audio/AudioFileReader.java:29-57 | whatever the input, a successful read returns the scaled samples of a mono 16 kHz WAVE file present in the resulting file system, half its byte count long, all within [-1, 1] |
| AudioFileReader.ConvertedOnce | src/main/java/org/mule/extension/whisperer/internal/helpers/audio/AudioFileReader.java:29-35 | a stream that is not mono 16 kHz is converted once and the converted file's samples are returned, the converted file being the only change |
| AudioFileReader.EmptyStreamFails | src/main/java/org/mule/extension/whisperer/internal/helpers/audio/AudioFileReader.java:41-45 | a mono 16 kHz stream with no bytes fails with an `IOException` whose message contains the absolute path, and writes nothing |
| Mp3ToWavConverter.FrameFormat | src/main/java/org/mule/extension/whisperer/internal/helpers/audio/AudioFileReader.java:144-151 | the output format has the frame's frequency and channel count, 16-bit signed little-endian samples |
| Mp3ToWavConverter.WholeFrames | src/main/java/org/mule/extension/whisperer/internal/helpers/audio/AudioFileReader.java:166-168 | the audio stream delivers a prefix of the data shorter by less than one frame |
| Mp3ToWavConverter.ConvertMp3ToWav | src/main/java/org/mule/extension/whisperer/internal/helpers/audio/AudioFileReader.java:128-175 | the new file system and outcome are those of `Conversion`; the output exists whenever the input does; the only failures are `IOException` and `NullPointerException`; no other file changes |
| Mp3ToWavConverter.CollectFrames | src/main/java/org/mule/extension/whisperer/internal/helpers/audio/AudioFileReader.java:135-164 | the format is that of the first frame and is set once, the bytes are the little-endian encoding of every frame's samples in frame order, and the count is the sum of the frames' buffer lengths |
| Mp3ToWavConverter.EncodeFrame | src/main/java/org/mule/extension/whisperer/internal/helpers/audio/AudioFileReader.java:154-159 | the buffer is twice the frame's length and is each short as its low byte then its high byte |
| Mp3ToWavConverter.AllSamplesLength | src/main/java/org/mule/extension/whisperer/internal/helpers/audio/AudioFileReader.java:154-166 | the written byte count is twice the sum of all frame buffer lengths |
| Mp3ToWavConverter.AllSamplesInFrameOrder | src/main/java/org/mule/extension/whisperer/internal/helpers/audio/AudioFileReader.java:141-161 | sample j of frame k sits right after the samples of all earlier frames |
| Mp3ToWavConverter.WrittenDataDecodes | src/main/java/org/mule/extension/whisperer/internal/helpers/audio/AudioFileReader.java:154-170 | reading the written data back as little-endian shorts gives every decoded sample unchanged when the count is a whole number of frames |
| ByteDecoConverter.FirstAudioStream | src/main/java/org/mule/extension/whisperer/internal/helpers/audio/ByteDecoConverter.java:99-112 | the index of the first stream that is audio, -1 exactly when no stream is audio; no earlier stream is audio |
| ByteDecoConverter.FindAudioStream | src/main/java/org/mule/extension/whisperer/internal/helpers/audio/ByteDecoConverter.java:99-112 | the stream loop breaks at the first audio stream and so returns its index, or -1 |
| ByteDecoConverter.ChunkOf | src/main/java/org/mule/extension/whisperer/internal/helpers/audio/ByteDecoConverter.java:197-208 | a frame that produced samples contributes exactly `outSamples` shorts |
| ByteDecoConverter.AppendFrames | src/main/java/org/mule/extension/whisperer/internal/helpers/audio/ByteDecoConverter.java:180-213 | the receive and flush loops append one chunk per frame with samples, in frame order, and keep `totalSamples` the total chunk length |
| ByteDecoConverter.AppendChunk | src/main/java/org/mule/extension/whisperer/internal/helpers/audio/ByteDecoConverter.java:208-209 | adding a chunk grows the total length by the chunk's length |
| ByteDecoConverter.DecodePackets | src/main/java/org/mule/extension/whisperer/internal/helpers/audio/ByteDecoConverter.java:165-216 | the read loop fails exactly when some decoded packet ends in a receive error; otherwise it collects the chunks of the decoded packets in reading order; `totalSamples` is their total length |
| ByteDecoConverter.NoNewFailure | src/main/java/org/mule/extension/whisperer/internal/helpers/audio/ByteDecoConverter.java:169-186 | a packet that is skipped or ends cleanly does not make the prefix fail |
| ByteDecoConverter.Combine | src/main/java/org/mule/extension/whisperer/internal/helpers/audio/ByteDecoConverter.java:248-254 | the combined array has `totalSamples` elements and holds the chunks one after another |
| ByteDecoConverter.StepFailure | src/main/java/org/mule/extension/whisperer/internal/helpers/audio/ByteDecoConverter.java:88-186 | a file that does not open fails with "Could not open input file: " and the path |
| ByteDecoConverter.HeldAt | src/main/java/org/mule/extension/whisperer/internal/helpers/audio/ByteDecoConverter.java:88-155 | the format context is always allocated; the codec context exactly when the four checks up to a decoder pass; the resampler exactly when the parameters copy and the codec opens as well; the frames and the packet exactly when the resampler initialises as well |
| ByteDecoConverter.Attempt | src/main/java/org/mule/extension/whisperer/internal/helpers/audio/ByteDecoConverter.java:86-270 | the try body throws exactly the message of the first failing step; without one it yields the little-endian bytes of all chunks with every handle set; the handles held when it is left are exactly `HeldAt`, those allocated before the failing step |
| ByteDecoConverter.ConvertToWav | src/main/java/org/mule/extension/whisperer/internal/helpers/audio/ByteDecoConverter.java:76-305 | the new file system and result are those of the conversion specification; the finally block frees exactly the handles that were set; the handles held are `HeldAt` of the session; success means every handle was allocated |
| ByteDecoConverter.FailuresAreWrappedIOExceptions | src/main/java/org/mule/extension/whisperer/internal/helpers/audio/ByteDecoConverter.java:282-283 | every failure is an IOException with the fixed prefix wrapping the step's IOException, whose message follows the prefix; nothing is written |
| ByteDecoConverter.OutputIsTargetPcm | src/main/java/org/mule/extension/whisperer/internal/helpers/audio/ByteDecoConverter.java:46-48 | success writes a mono 16 kHz 16-bit signed little-endian WAVE file whose data is two bytes per sample and decodes back to the concatenated chunks |
| ByteDecoConverter.ChunksAreNonEmpty | src/main/java/org/mule/extension/whisperer/internal/helpers/audio/ByteDecoConverter.java:197-210 | no collected chunk is empty, and there are at most as many chunks as frames |
| ByteDecoConverter.SkippedPacket | src/main/java/org/mule/extension/whisperer/internal/helpers/audio/ByteDecoConverter.java:170-177 | a packet of another stream, or one the decoder refuses, adds no samples and no failure |
| ByteDecoConverter.ReleaseFreesEachOnce | src/main/java/org/mule/extension/whisperer/internal/helpers/audio/ByteDecoConverter.java:284-304 | the finally block frees each handle that was set exactly once and no other |
| ByteDecoConverter.ReleaseCount | src/main/java/org/mule/extension/whisperer/internal/helpers/audio/ByteDecoConverter.java:286-303 | each of the six guarded frees counts its own handle only |
| ComOpenAiConnection.GuessAudioFileExtension | src/main/java/com/mule/whisperer/internal/connection/OpenAiConnection.java:112-142 | the extension is always one of m4a, flac, wav, ogg, weba, aac, mp3 |
| ComOpenAiConnection.GuessAgreesWithHelpers | src/main/java/com/mule/whisperer/internal/connection/OpenAiConnection.java:112-142 | this switch gives the same answer as the helper `guessAudioFileExtension` for every media type |
| ComOpenAiConnection.XM4aFallsBackToMp3 | src/main/java/com/mule/whisperer/internal/connection/OpenAiConnection.java:114-140 | "audio/x-m4a" is not among the cases and falls back to "mp3" |
| ComOpenAiConnection.ThreeLookups | src/main/java/com/mule/whisperer/internal/connection/OpenAiConnection.java:74 | a list of three parts is named file, model, response_format in that order, each name finds its part, and no other name finds anything |
| ComOpenAiConnection.TranscriptionParts | src/main/java/com/mule/whisperer/internal/connection/OpenAiConnection.java:66-68 | the form has exactly the fields file, model and response_format; file is the audio named "speech." plus the guessed extension, model is the model name, response_format is "text" |
| ComOpenAiConnection.TranscriptionReply | src/main/java/com/mule/whisperer/internal/connection/OpenAiConnection.java:76-82 | a transport failure fails the future; a status other than 200 fails it with a RuntimeException whose message names the status; 200 completes it with the body as text |
| ComOpenAiConnection.ComOpenAiConnection.constructor | src/main/java/com/mule/whisperer/internal/connection/OpenAiConnection.java:34-38 | the connection keeps the API key, the client and the base URI it is given |
| ComOpenAiConnection.ComOpenAiConnection.Validate | src/main/java/com/mule/whisperer/internal/connection/OpenAiConnection.java:40-60 | the outcome of `OpenAiApi.HealthCheck` on the connection's client, key and base URI: it passes exactly on a 200 answer from the models endpoint |
| ComOpenAiConnection.ComOpenAiConnection.Transcribe | src/main/java/com/mule/whisperer/internal/connection/OpenAiConnection.java:63-83 | a stream that fails to read throws before anything is sent; otherwise one POST to the base URI resolved against "audio/transcriptions", with the bearer header and the three-part form, whose answer becomes the reply |
| ComOpenAiConnection.ComOpenAiConnection.Generate | src/main/java/com/mule/whisperer/internal/connection/OpenAiConnection.java:86-110 | the speech request is a POST to "audio/speech" with the bearer and JSON content-type headers, whose JSON object holds only the speech keys: the text as "input", and model, voice, response format and speed exactly when set; a status other than 200 fails the future with a RuntimeException naming the status |
| Common.CompletionWrap | src/main/java/org/mule/extension/whisperer/internal/connection/openai/OpenAiConnection.java:99-120 | an exception thrown inside an asynchronous stage reaches the observer as a CompletionException whose cause it is |
| Http.TextPart | src/main/java/org/mule/extension/whisperer/internal/connection/openai/OpenAiConnection.java:80-81 | a text part has its field name, no file name, the text/plain type, and between one and four bytes per character of its value |
| Http.Authorization | src/main/java/org/mule/extension/whisperer/internal/connection/openai/OpenAiConnection.java:50 | the header is "Authorization" and its value is "Bearer " followed by exactly the API key |
| Http.Resolve | src/main/java/org/mule/extension/whisperer/internal/connection/openai/OpenAiConnection.java:48 | a relative path resolved against the base URI ends with that path, and is appended as it is to a base ending in "/" |
| Http.UnexpectedStatus | src/main/java/org/mule/extension/whisperer/internal/connection/openai/OpenAiConnection.java:58 | the message starts with "Unexpected status code ", ends with " from " and the origin, and contains the decimal status |
| Http.UnexpectedStatusNamesTheStatus | src/main/java/org/mule/extension/whisperer/internal/connection/openai/OpenAiConnection.java:58 | two such messages for the same origin are equal only for the same status |
| Http.Names | src/main/java/org/mule/extension/whisperer/internal/connection/openai/OpenAiConnection.java:78-92 | one field name per part |
| Http.Lookup | src/main/java/org/mule/extension/whisperer/internal/connection/openai/OpenAiConnection.java:78-92 | a part found by name carries that name |
| Http.LookupFinds | src/main/java/org/mule/extension/whisperer/internal/connection/openai/OpenAiConnection.java:78-92 | a lookup finds nothing exactly when the name is not among the field names, and what it finds is a part of the list |
| Http.LookupConcat | src/main/java/org/mule/extension/whisperer/internal/connection/openai/OpenAiConnection.java:78-92 | a lookup in a joined part list answers from the first list when it can, from the second otherwise |
| Http.NamesConcat | src/main/java/org/mule/extension/whisperer/internal/connection/openai/OpenAiConnection.java:78-92 | the names of a joined part list are the joined names |
| Http.JsonObject.constructor | src/main/java/org/mule/extension/whisperer/internal/connection/openai/OpenAiConnection.java:127 | a new JSON object has no keys |
| Http.JsonObject.Put | src/main/java/org/mule/extension/whisperer/internal/connection/openai/OpenAiConnection.java:128-132 | putting a value sets the key to it; putting `null` removes the key; no other key changes |
| Http.OptString | src/main/java/org/mule/extension/whisperer/internal/connection/openai/OpenAiConnection.java:108 | a missing key gives the empty string, a string value gives itself |
| Http.OptDouble | src/main/java/org/mule/extension/whisperer/internal/connection/openai/OpenAiConnection.java:109 | there is a number exactly when the key holds a JSON number, and it is that value (NaN otherwise) |
| Http.GetString | src/main/java/org/mule/extension/whisperer/internal/connection/openai/OpenAiConnection.java:112 | succeeds exactly when the key holds a string, with that string; otherwise a JSONException |
| OpenAiApi.HealthCheck | src/main/java/org/mule/extension/whisperer/internal/connection/openai/OpenAiConnection.java:46-66 | validation passes exactly on a 200 answer from the models endpoint; another status is a ConnectionException naming the status and the endpoint; an IOException or TimeoutException is wrapped in a ConnectionException; other failures escape unchanged |
| OpenAiApi.SpeechRequest | src/main/java/org/mule/extension/whisperer/internal/connection/openai/OpenAiConnection.java:124-140 | a POST to "audio/speech" with the bearer and JSON content-type headers, whose JSON object holds only the five speech keys: the input text always, and model, voice, response format and speed exactly when they are not `null` |
| OpenAiApi.SpeechReply | src/main/java/org/mule/extension/whisperer/internal/connection/openai/OpenAiConnection.java:142-148 | a 200 answer completes with the body; another status fails with the given exception kind naming the status; a transport failure fails the future |
| OpenAiApi.FilePart | src/main/java/org/mule/extension/whisperer/internal/connection/openai/OpenAiConnection.java:82 | the "file" part is named "speech." plus the extension, holds the audio bytes and declares the full media type |
| OpenAiApi.ReadFailure | src/main/java/org/mule/extension/whisperer/internal/connection/openai/OpenAiConnection.java:77 | a stream that cannot be read raises an unchecked exception caused by the read failure |
| OpenAiConnection.ResponseFormat | src/main/java/org/mule/extension/whisperer/internal/connection/openai/OpenAiConnection.java:72-75 | "verbose_json" exactly for a verbose request, "text" exactly otherwise |
| OpenAiConnection.OptionalLookup | src/main/java/org/mule/extension/whisperer/internal/connection/openai/OpenAiConnection.java:84-92 | an optional part is found by its own name exactly when it is present |
| OpenAiConnection.FixedLookups | src/main/java/org/mule/extension/whisperer/internal/connection/openai/OpenAiConnection.java:80-82 | the three fixed parts answer model, response_format and file, whatever follows them |
| OpenAiConnection.OptionalLookups | src/main/java/org/mule/extension/whisperer/internal/connection/openai/OpenAiConnection.java:84-92 | after the three fixed parts, prompt, temperature and language appear in that order, each exactly when its condition holds and with its own value |
| OpenAiConnection.FormIsTranscriptionForm | src/main/java/org/mule/extension/whisperer/internal/connection/openai/OpenAiConnection.java:78-92 | the form has model, response_format and file, then prompt when one is given and non-empty, temperature when positive, language when given and non-empty, each found with its value |
| OpenAiConnection.VerboseResult | src/main/java/org/mule/extension/whisperer/internal/connection/openai/OpenAiConnection.java:105-114 | text that is not a JSON object fails with a JSONException; a "text" string completes with it and with the language and duration as attributes; a missing "text" fails with a JSONException |
| OpenAiConnection.TranscriptionReply | src/main/java/org/mule/extension/whisperer/internal/connection/openai/OpenAiConnection.java:99-120 | a status other than 200 fails with TRANSCRIPTION naming the status; a 200 answer completes with the body as text without attributes, or with the verbose JSON reading when verbose output was asked for; a transport failure fails the future |
| OpenAiConnection.AttributesIffVerbose | src/main/java/org/mule/extension/whisperer/internal/connection/openai/OpenAiConnection.java:105-119 | a completed transcription has attributes exactly when verbose output was asked for |
| OpenAiConnection.FailureNamesTheStatus | src/main/java/org/mule/extension/whisperer/internal/connection/openai/OpenAiConnection.java:101-104 | two failed answers with the same failure had the same status |
| OpenAiConnection.OpenAiConnection.constructor | src/main/java/org/mule/extension/whisperer/internal/connection/openai/OpenAiConnection.java:40-44 | the connection keeps the API key, the client and the base URI it is given |
| OpenAiConnection.OpenAiConnection.Validate | src/main/java/org/mule/extension/whisperer/internal/connection/openai/OpenAiConnection.java:46-66 | the outcome of `OpenAiApi.HealthCheck` on the connection's client, key and base URI: it passes exactly on a 200 answer from the models endpoint |
| OpenAiConnection.OpenAiConnection.TranscriptionParts | src/main/java/org/mule/extension/whisperer/internal/connection/openai/OpenAiConnection.java:78-92 | the conditional `add`s build exactly the transcription form |
| OpenAiConnection.OpenAiConnection.Transcribe | src/main/java/org/mule/extension/whisperer/internal/connection/openai/OpenAiConnection.java:69-121 | a stream that fails to read throws before anything is sent; otherwise one POST to "audio/transcriptions" with the bearer header and the transcription form, whose answer becomes the reply |
| OpenAiConnection.OpenAiConnection.Generate | src/main/java/org/mule/extension/whisperer/internal/connection/openai/OpenAiConnection.java:123-149 | the speech request is a POST to "audio/speech" with the bearer and JSON content-type headers, whose JSON object holds only the speech keys: the text as "input", and model, voice, response format and speed exactly when set; a status other than 200 fails the future with GENERATION naming the status |
| Pcm.ShortRoundTrip | src/main/java/org/mule/extension/whisperer/internal/helpers/audio/AudioFileReader.java:156-158 | the low and high bytes the MP3 converter writes read back, little-endian, as the same short |
| Pcm.BytesRoundTrip | src/main/java/org/mule/extension/whisperer/internal/helpers/audio/AudioFileReader.java:156-158 | every pair of bytes is the low and high byte of the short it encodes |
| Pcm.EncodeLE | src/main/java/org/mule/extension/whisperer/internal/helpers/audio/ByteDecoConverter.java:256-261 | two bytes per short |
| Pcm.DecodeLE | src/main/java/org/mule/extension/whisperer/internal/helpers/audio/AudioFileReader.java:47-48 | one short per whole pair of bytes |
| Pcm.EncodeLEAt | src/main/java/org/mule/extension/whisperer/internal/helpers/audio/AudioFileReader.java:155-159 | the short at index i sits at bytes 2i (low) and 2i+1 (high) |
| Pcm.DecodeEncode | src/main/java/org/mule/extension/whisperer/internal/helpers/audio/ByteDecoConverter.java:256-261 | decoding the little-endian bytes of samples gives the samples back |
| Pcm.EncodeDecode | src/main/java/org/mule/extension/whisperer/internal/helpers/audio/AudioFileReader.java:47-48 | encoding the shorts read from an even-length byte string gives the bytes back |
| Pcm.EncodeLEConcat | src/main/java/org/mule/extension/whisperer/internal/helpers/audio/AudioFileReader.java:160 | the bytes of consecutive frames are the bytes of the frames one after another |
| Pcm.Scale | src/main/java/org/mule/extension/whisperer/internal/helpers/audio/AudioFileReader.java:56 | every scaled sample lies in [-1, 1] |
| Pcm.ScaleLandmarks | src/main/java/org/mule/extension/whisperer/internal/helpers/audio/AudioFileReader.java:56 | 0 scales to 0, 32767 to 1 and -32768 to -1 |
| Pcm.ScaleIsQuotientAboveMin | src/main/java/org/mule/extension/whisperer/internal/helpers/audio/AudioFileReader.java:56 | above -32768 the clamp does nothing and the sample is divided by 32767 |
| Pcm.ScaleMonotonic | src/main/java/org/mule/extension/whisperer/internal/helpers/audio/AudioFileReader.java:56 | scaling keeps the order of samples |
| Pcm.Concat | src/main/java/org/mule/extension/whisperer/internal/helpers/audio/ByteDecoConverter.java:248-254 | the combined samples are as many as the chunks hold together |
| Pcm.TotalLengthOfPrefix | src/main/java/org/mule/extension/whisperer/internal/helpers/audio/ByteDecoConverter.java:251-253 | each further chunk adds its length to the offset, which stays within the total |
| Pcm.Fill | src/main/java/org/mule/extension/whisperer/internal/helpers/audio/ByteDecoConverter.java:199-202 | reading n bytes from the frame's plane gives n bytes, the plane's own where it has them |
| Media.Parent | src/main/java/org/mule/extension/whisperer/internal/helpers/audio/AudioFileReader.java:63 | a path has a parent directory exactly when it contains a '/' |
| Media.Child | src/main/java/org/mule/extension/whisperer/internal/helpers/audio/AudioFileReader.java:63 | the file made inside a directory ends with the child's name |
| Media.AbsolutePath | src/main/java/org/mule/extension/whisperer/internal/helpers/audio/AudioFileReader.java:44 | the absolute path ends with the path it was made from |
| LocalInference.JoinSegments | src/main/java/org/mule/extension/whisperer/internal/connection/whisperjni/WhisperJNIConnection.java:130-133 | the StringBuilder loop yields the transcript: every segment text followed by one space, in segment order |
| LocalInference.TranscriptLength | src/main/java/org/mule/extension/whisperer/internal/connection/whisperjni/WhisperJNIConnection.java:130-133 | the transcript is as long as the segment texts together plus one space per segment |
| LocalInference.TranscriptConcat | src/main/java/org/mule/extension/whisperer/internal/connection/whisperjni/WhisperJNIConnection.java:130-133 | the transcript of two runs of segments is their transcripts one after the other |
| LocalInference.TranscriptUntrimmed | src/main/java/org/mule/extension/whisperer/internal/connection/whisperjni/WhisperJNIConnection.java:132 | nothing is trimmed: a non-empty transcript ends in a space, one segment gives its text and one space, no segment gives the empty text |
| LocalInference.BufferAudio | src/main/java/org/mule/extension/whisperer/internal/connection/whisperjni/WhisperJNIConnection.java:57-62 | the copy loop writes exactly the bytes the stream delivers, and ends with the stream's read failure if it has one |
| LocalInference.OpenFailure | src/main/java/org/mule/extension/whisperer/internal/connection/whisperjni/WhisperJNIConnection.java:56 | opening the temporary file fails exactly for the paths the host cannot open for writing, with an `IOException` carrying the host's message |
| LocalInference.BufferToFile | src/main/java/org/mule/extension/whisperer/internal/connection/whisperjni/WhisperJNIConnection.java:56-66 | opening and then filling the temporary file give the buffering stage: an unopenable path leaves the file system as it was and fails with the open exception; otherwise the file holds what the stream delivered and the stream's failure, if any, is the failure |
| LocalInference.ReplaceExtension | src/main/java/org/mule/extension/whisperer/internal/connection/whisperjni/WhisperJNIConnection.java:80 | a path ending in a dot and word characters has that extension replaced and keeps everything before the last dot; any other path is unchanged |
| LocalInference.ExtensionIsThePattern | src/main/java/org/mule/extension/whisperer/internal/connection/whisperjni/WhisperJNIConnection.java:80 | the pattern matches somewhere exactly when the path has an extension, and then only at the last dot, so at most one replacement happens |
| LocalInference.ReplacesLastExtension | src/main/java/org/mule/extension/whisperer/internal/connection/whisperjni/WhisperJNIConnection.java:80 | a stem, a dot and a word-character extension becomes the stem and the replacement |
| LocalInference.Outcome | src/main/java/org/mule/extension/whisperer/internal/connection/whisperjni/WhisperJNIConnection.java:119-137 | a non-zero result code fails with TRANSCRIPTION naming the code; code 0 completes with the transcript and no attributes |
| LocalInference.OutcomeNamesTheCode | src/main/java/org/mule/extension/whisperer/internal/connection/whisperjni/WhisperJNIConnection.java:121-124 | two failed inferences give the same failure only for the same result code |
| LocalInference.ChildAppends | src/main/java/org/mule/extension/whisperer/internal/connection/whisperjni/WhisperJNIConnection.java:55 | a file made inside a directory is a fixed prefix followed by the name |
| LocalInference.AbsoluteAppends | src/main/java/org/mule/extension/whisperer/internal/connection/whisperjni/WhisperJNIConnection.java:71 | the absolute path of a directory and a relative name is the absolute directory followed by the name |
| LocalInference.TempAudioPathShape | src/main/java/org/mule/extension/whisperer/internal/connection/whisperjni/WhisperJNIConnection.java:54-55 | every temporary audio file lands in the same directory, the app home resolved against the working directory |
| LocalInference.ConvertedPathIsAudioWav | src/main/java/org/mule/extension/whisperer/internal/connection/whisperjni/WhisperJNIConnection.java:55-80 | the temporary file of any recognised format becomes "audio.wav" in the same directory once its extension is rewritten |
| LocalInference.AudioFileBecomesWav | src/main/java/org/mule/extension/whisperer/internal/connection/whisperjni/WhisperJNIConnection.java:80 | "audio." and a word-character extension inside a directory becomes "audio.wav" there |
| LocalInference.ReadStage | src/main/java/org/mule/extension/whisperer/internal/connection/whisperjni/WhisperJNIConnection.java:114-142 | samples are handed on exactly when `readFile` yields them; an IOException or UnsupportedAudioFileException becomes a failed future carrying TRANSCRIPTION; any other exception escapes |
| LocalInference.FinishFailuresAreTranscriptionErrors | src/main/java/org/mule/extension/whisperer/internal/connection/whisperjni/WhisperJNIConnection.java:100-142 | every failed future of a local transcription carries TRANSCRIPTION in a CompletionException; every thrown exception is a refused format or one no catch clause names |
| LocalInference.ReadAndRun | src/main/java/org/mule/extension/whisperer/internal/connection/whisperjni/WhisperJNIConnection.java:114-142 | reading the file, running the engine and joining the segments behaves as the read stage followed by the outcome |
| LocalInference.FinishCompletesWithTranscript | src/main/java/org/mule/extension/whisperer/internal/connection/whisperjni/WhisperJNIConnection.java:119-137 | once samples are read the reply is the engine's outcome, and a completed one had result code 0 and is the transcript of its segments |
| LocalInference.GenerationUnsupported | src/main/java/org/mule/extension/whisperer/internal/connection/whisperjni/WhisperJNIConnection.java:145-150 | speech generation always fails, with CONNECTION_INCOMPATIBLE |
| WhisperJNIConnection.FormatNotSupported | src/main/java/org/mule/extension/whisperer/internal/connection/whisperjni/WhisperJNIConnection.java:94-95 | a refused format is an AUDIO_FORMAT_NOT_SUPPORTED module error whose message is "Audio format not supported: " and what was refused |
| WhisperJNIConnection.Converted | src/main/java/org/mule/extension/whisperer/internal/connection/whisperjni/WhisperJNIConnection.java:77-104 | a conversion failure that is an IOException or UnsupportedAudioFileException becomes a failed future, any other escapes; samples are read only after a conversion that succeeded, from the WAV file it wrote |
| WhisperJNIConnection.WhisperJNIConnection.constructor | src/main/java/org/mule/extension/whisperer/internal/connection/whisperjni/WhisperJNIConnection.java:33-39 | the connection keeps the engine, the thread count and the translate and progress flags |
| WhisperJNIConnection.WhisperJNIConnection.Params | src/main/java/org/mule/extension/whisperer/internal/connection/whisperjni/WhisperJNIConnection.java:43-49 | threads, translation and progress come from the connection, language and temperature from the request, and the initial prompt is the fine-tuning prompt |
| WhisperJNIConnection.WhisperJNIConnection.FormatStage | src/main/java/org/mule/extension/whisperer/internal/connection/whisperjni/WhisperJNIConnection.java:80-110 | however the switch ends, an early stop is a refused format, an uncaught exception, or a failed future carrying TRANSCRIPTION |
| WhisperJNIConnection.WhisperJNIConnection.Prepare | src/main/java/org/mule/extension/whisperer/internal/connection/whisperjni/WhisperJNIConnection.java:53-115 | the same classification holds for everything before the engine runs, including an open or read failure of the temporary file |
| WhisperJNIConnection.WhisperJNIConnection.ConvertAndRun | src/main/java/org/mule/extension/whisperer/internal/connection/whisperjni/WhisperJNIConnection.java:80-142 | the switch and the rest of `transcribe` give the file system and reply of the format stage followed by the engine run |
| WhisperJNIConnection.WhisperJNIConnection.Transcribe | src/main/java/org/mule/extension/whisperer/internal/connection/whisperjni/WhisperJNIConnection.java:41-143 | buffering (with the open failure of the temporary file and the read failure of the stream), the format guess, the conversion, the read and the engine run give exactly the file system and reply of the transcription specification |
| WhisperJNIConnection.WhisperJNIConnection.Generate | src/main/java/org/mule/extension/whisperer/internal/connection/whisperjni/WhisperJNIConnection.java:145-150 | speech generation always fails with CONNECTION_INCOMPATIBLE and the fixed message |
| WhisperJNIConnection.WhisperJNIConnection.UnknownFormatThrows | src/main/java/org/mule/extension/whisperer/internal/connection/whisperjni/WhisperJNIConnection.java:106-110 | a media type with no known format is buffered as "audio.unknown" and refused synchronously, naming the whole media type |
| WhisperJNIConnection.WhisperJNIConnection.UnconvertedFormatsThrow | src/main/java/org/mule/extension/whisperer/internal/connection/whisperjni/WhisperJNIConnection.java:93-96 | FLAC, OGG, WEBA and AAC are buffered under their own extension and refused synchronously, naming the format |
| WhisperJNIConnection.WhisperJNIConnection.BufferFailureIsAsynchronous | src/main/java/org/mule/extension/whisperer/internal/connection/whisperjni/WhisperJNIConnection.java:56-67 | a temporary file that cannot be opened, or a stream that fails while being buffered, gives a failed future with the buffering message and that exception as its cause, even for a format that would be refused; the open failure comes first and creates no file |
| WhisperJNIConnection.WhisperJNIConnection.FailureClassification | src/main/java/org/mule/extension/whisperer/internal/connection/whisperjni/WhisperJNIConnection.java:63-142 | only a refused format or an exception no catch clause names escapes `transcribe`; every failed future carries TRANSCRIPTION in a CompletionException |
| WhisperJNIConnection.WhisperJNIConnection.SamplesComeFromTheRightFile | src/main/java/org/mule/extension/whisperer/internal/connection/whisperjni/WhisperJNIConnection.java:71-115 | the engine only runs for WAV, MP3 and M4A; for WAV on the samples of the buffered file; for MP3 and M4A the JLayer or ffmpeg conversion of the buffered file succeeded and the samples are those read from "audio.wav" in the file system that conversion left |
| WhisperJNIConnection.WhisperJNIConnection.PrepareIsFormatStage | src/main/java/org/mule/extension/whisperer/internal/connection/whisperjni/WhisperJNIConnection.java:55-82 | when the temporary file opens and the stream does not fail, a recognised format goes to the switch with the file named "audio." plus that format |
| WhisperJNIConnection.WhisperJNIConnection.FormatStageReads | src/main/java/org/mule/extension/whisperer/internal/connection/whisperjni/WhisperJNIConnection.java:82-115 | a stage that reads samples read the buffered file for "wav"; for "mp3" and "m4a" the JLayer or ffmpeg conversion succeeded and the samples are read at the rewritten path in the file system it left |
| WhisperJNIConnection.WhisperJNIConnection.TranscriptComesFromTheEngine | src/main/java/org/mule/extension/whisperer/internal/connection/whisperjni/WhisperJNIConnection.java:119-137 | a completed transcription had samples read, a zero result code from the engine on the connection's parameters, and is the transcript of the engine's segments |
| LocalWhisperConnection.ConversionFailure | src/main/java/com/mule/whisperer/internal/connection/LocalWhisperConnection.java:65-75 | an UnsupportedAudioFileException becomes a failed future naming the media type, an IOException one with the conversion message, and anything else escapes |
| LocalWhisperConnection.Converted | src/main/java/com/mule/whisperer/internal/connection/LocalWhisperConnection.java:64-83 | an early stop is a failed future carrying TRANSCRIPTION or an exception no catch clause names; samples are read only after a conversion that succeeded, from the file it wrote |
| LocalWhisperConnection.LocalWhisperConnection.constructor | src/main/java/com/mule/whisperer/internal/connection/LocalWhisperConnection.java:28-33 | the connection keeps the engine, the thread count and the language |
| LocalWhisperConnection.LocalWhisperConnection.Params | src/main/java/com/mule/whisperer/internal/connection/LocalWhisperConnection.java:36-40 | threads and language come from the connection; no translation, no progress output, no temperature and no initial prompt, whatever the request says |
| LocalWhisperConnection.LocalWhisperConnection.Prepare | src/main/java/com/mule/whisperer/internal/connection/LocalWhisperConnection.java:44-83 | no media type is refused: an early stop, including a temporary file that cannot be opened or a stream that fails, is a failed future carrying TRANSCRIPTION or an exception no catch clause names |
| LocalWhisperConnection.LocalWhisperConnection.Transcribe | src/main/java/com/mule/whisperer/internal/connection/LocalWhisperConnection.java:34-110 | buffering (with the open failure of the temporary file and the read failure of the stream), the conversion of every non-WAV upload, the read and the engine run give exactly the file system and reply of the transcription specification |
| LocalWhisperConnection.LocalWhisperConnection.Generate | src/main/java/com/mule/whisperer/internal/connection/LocalWhisperConnection.java:112-117 | speech generation always fails with CONNECTION_INCOMPATIBLE and the fixed message |
| LocalWhisperConnection.LocalWhisperConnection.NonWavIsTreatedAsMp3 | src/main/java/com/mule/whisperer/internal/connection/LocalWhisperConnection.java:62-66 | every upload that is not WAV goes through the MP3 converter, whatever its media type, and is read from "audio.wav" |
| LocalWhisperConnection.LocalWhisperConnection.WavIsReadDirectly | src/main/java/com/mule/whisperer/internal/connection/LocalWhisperConnection.java:46-62 | a WAV upload is read straight from the buffered "audio.wav" |
| LocalWhisperConnection.LocalWhisperConnection.BufferFailureIsAsynchronous | src/main/java/com/mule/whisperer/internal/connection/LocalWhisperConnection.java:47-57 | a temporary file that cannot be opened, or a stream that fails while being buffered, gives a failed future with the buffering message and that exception as its cause; the open failure comes first and creates no file |
| LocalWhisperConnection.LocalWhisperConnection.FailureClassification | src/main/java/com/mule/whisperer/internal/connection/LocalWhisperConnection.java:53-109 | only an exception no catch clause names escapes `transcribe`; every failed future carries TRANSCRIPTION in a CompletionException |
| LocalWhisperConnection.LocalWhisperConnection.TranscriptComesFromTheEngine | src/main/java/com/mule/whisperer/internal/connection/LocalWhisperConnection.java:83-104 | the reply does not depend on the prompt or the request options; a completed one had result code 0 and is the transcript of the engine's segments |
| SpeechOperations.InferMediaType | src/main/java/com/mule/whisperer/internal/SpeechOperations.java:72-91 | "audio/" and the format for mp3, ogg, aac, flac, pcm and wav; BINARY for any other format; a `null` format fails the switch with a NullPointerException |
| SpeechOperations.OpusIsBinary | src/main/java/com/mule/whisperer/internal/SpeechOperations.java:72-91 | of the formats the options offer, only "opus" is tagged BINARY |
| SpeechOperations.AudioTypesAreDistinct | src/main/java/com/mule/whisperer/internal/SpeechOperations.java:73-85 | different listed formats get different media types |
| SpeechOperations.Transcribe | src/main/java/com/mule/whisperer/internal/SpeechOperations.java:34-48 | a completed transcription reaches the callback as its output alone; a failure as the cause of the exception |
| SpeechOperations.TranscribeDropsAttributes | src/main/java/com/mule/whisperer/internal/SpeechOperations.java:41-43 | the callback's success does not depend on the transcription's attributes |
| SpeechOperations.GenerateSpeech | src/main/java/com/mule/whisperer/internal/SpeechOperations.java:54-70 | the audio reaches the callback unchanged, tagged with the media type of the requested format; a failure as its cause; a `null` format makes the callback action itself throw |
| SpeechOperations.ErrorIsTheThrownException | src/main/java/com/mule/whisperer/internal/SpeechOperations.java:45 | a failure thrown inside a connection's asynchronous stage reaches the callback as that very exception |
| TextToSpeechOperations.GenerateSpeech | src/main/java/org/mule/extension/whisperer/internal/operation/TextToSpeechOperations.java:27-64 | on success the audio unchanged, tagged "audio/" plus the format, without parameters, for the six listed formats and BINARY for any other; a `null` format throws a `NullPointerException` inside the callback action, which then answers nothing; on failure the cause; and the answer is that of the older `generateSpeech` |
| TextToSpeechOperations.InferMediaType | src/main/java/org/mule/extension/whisperer/internal/operation/TextToSpeechOperations.java:45-64 | "audio/" plus the format, without parameters, for the six listed formats, BINARY for any other, and a `NullPointerException` for a `null` format |
| MuleChainVoiceOperations.OutputStream.constructor | src/main/java/com/mule/whisperer/internal/MuleChainVoiceOperations.java:135 | a new stream has nothing written |
| MuleChainVoiceOperations.OutputStream.Write | src/main/java/com/mule/whisperer/internal/MuleChainVoiceOperations.java:270 | writing appends exactly the given bytes |
| MuleChainVoiceOperations.Writer.constructor | src/main/java/com/mule/whisperer/internal/MuleChainVoiceOperations.java:259 | the writer wraps the given stream and holds no text |
| MuleChainVoiceOperations.Writer.Append | src/main/java/com/mule/whisperer/internal/MuleChainVoiceOperations.java:262 | appended text waits in the writer; nothing reaches the stream |
| MuleChainVoiceOperations.Writer.Flush | src/main/java/com/mule/whisperer/internal/MuleChainVoiceOperations.java:264 | a flush sends the UTF-8 encoding of the waiting text to the stream and empties the writer |
| MuleChainVoiceOperations.Copy | src/main/java/com/mule/whisperer/internal/MuleChainVoiceOperations.java:266-273 | the buffered copy loop writes exactly the input's bytes, in order |
| MuleChainVoiceOperations.HeaderBoundary | src/main/java/com/mule/whisperer/internal/MuleChainVoiceOperations.java:130 | a boundary is read off a Content-Type only when that type is the multipart prefix followed by it |
| MuleChainVoiceOperations.FieldNames | src/main/java/com/mule/whisperer/internal/MuleChainVoiceOperations.java:257-306 | one name per field, each the field's own |
| MuleChainVoiceOperations.PartsSnoc | src/main/java/com/mule/whisperer/internal/MuleChainVoiceOperations.java:257-306 | one more field adds its bytes at the end of the body |
| MuleChainVoiceOperations.PartsSingle | src/main/java/com/mule/whisperer/internal/MuleChainVoiceOperations.java:257-306 | a body of one field is that field's bytes |
| MuleChainVoiceOperations.PartsPair | src/main/java/com/mule/whisperer/internal/MuleChainVoiceOperations.java:289-297 | a body of two fields is their bytes one after the other |
| MuleChainVoiceOperations.PartsOfFive | src/main/java/com/mule/whisperer/internal/MuleChainVoiceOperations.java:277-303 | a body shaped like the text fields is the leading fields' bytes followed by the trailing fields' bytes |
| MuleChainVoiceOperations.TextFieldsBytes | src/main/java/com/mule/whisperer/internal/MuleChainVoiceOperations.java:277-303 | the text fields' bytes are those of model and the optional prompt, then response_format, temperature and the optional language |
| MuleChainVoiceOperations.Regroup4 | src/main/java/com/mule/whisperer/internal/MuleChainVoiceOperations.java:262-305 | the parts of a body regroup freely |
| MuleChainVoiceOperations.BodyLayout | src/main/java/com/mule/whisperer/internal/MuleChainVoiceOperations.java:262-305 | a body is the file part's headers, the file bytes, CRLF, the text fields and the close delimiter |
| MuleChainVoiceOperations.AppendDelimiter | src/main/java/com/mule/whisperer/internal/MuleChainVoiceOperations.java:262 | the writer gains the delimiter line "--", the boundary and CRLF |
| MuleChainVoiceOperations.WriteTextField | src/main/java/com/mule/whisperer/internal/MuleChainVoiceOperations.java:278-280 | one text block sends exactly the bytes of that text field |
| MuleChainVoiceOperations.AppendFileDisposition | src/main/java/com/mule/whisperer/internal/MuleChainVoiceOperations.java:263 | the writer gains the file part's disposition line with the field name and file name |
| MuleChainVoiceOperations.WriteFileHead | src/main/java/com/mule/whisperer/internal/MuleChainVoiceOperations.java:262-264 | the file part's headers, declaring audio/mpeg, reach the stream before the file is opened |
| MuleChainVoiceOperations.WriteLineEnd | src/main/java/com/mule/whisperer/internal/MuleChainVoiceOperations.java:275 | a CRLF reaches the stream after the file bytes |
| MuleChainVoiceOperations.WriteCloseDelimiter | src/main/java/com/mule/whisperer/internal/MuleChainVoiceOperations.java:305 | the body ends with the close delimiter |
| MuleChainVoiceOperations.WriteLeadingFields | src/main/java/com/mule/whisperer/internal/MuleChainVoiceOperations.java:277-287 | the model field, then the prompt field exactly when the prompt is non-empty |
| MuleChainVoiceOperations.WriteTrailingFields | src/main/java/com/mule/whisperer/internal/MuleChainVoiceOperations.java:289-303 | the response_format and temperature fields, then the language field unless the language is "auto" |
| MuleChainVoiceOperations.WriteTextFields | src/main/java/com/mule/whisperer/internal/MuleChainVoiceOperations.java:277-303 | all text fields reach the stream in the order of the form |
| MuleChainVoiceOperations.WriteMultipartData | src/main/java/com/mule/whisperer/internal/MuleChainVoiceOperations.java:257-306 | for an existing file the stream receives exactly the encoded form (file part as audio/mpeg, text fields, close delimiter); for a missing one only the file part's headers, and the opening fails |
| MuleChainVoiceOperations.HeaderDeclaresTheBodyBoundary | src/main/java/com/mule/whisperer/internal/MuleChainVoiceOperations.java:130 | the body's delimiters (written with the boundary fixed at line 258) use exactly the boundary the Content-Type header declares |
| MuleChainVoiceOperations.PartsConcat | src/main/java/com/mule/whisperer/internal/MuleChainVoiceOperations.java:257-306 | the body of joined field lists is the joined bodies |
| MuleChainVoiceOperations.FieldStartsWithDelimiter | src/main/java/com/mule/whisperer/internal/MuleChainVoiceOperations.java:262-300 | every field begins with the delimiter line |
| MuleChainVoiceOperations.Slices | src/main/java/com/mule/whisperer/internal/MuleChainVoiceOperations.java:262-275 | the three pieces of a joined sequence are read back at their offsets |
| MuleChainVoiceOperations.FieldPosition | src/main/java/com/mule/whisperer/internal/MuleChainVoiceOperations.java:257-306 | the body is the fields before the i-th one, that field, and the fields after it with the close delimiter |
| MuleChainVoiceOperations.FileFieldLayout | src/main/java/com/mule/whisperer/internal/MuleChainVoiceOperations.java:262-275 | the raw file bytes stand right after the file part's headers and are followed by CRLF |
| MuleChainVoiceOperations.FileHeadDeclaresMpeg | src/main/java/com/mule/whisperer/internal/MuleChainVoiceOperations.java:264 | the file part's headers end with "Content-Type: audio/mpeg" and a blank line, whatever the file holds |
| MuleChainVoiceOperations.FieldOrder | src/main/java/com/mule/whisperer/internal/MuleChainVoiceOperations.java:262-303 | the fields come in the order file, model, optional prompt, response_format, temperature, optional language |
| MuleChainVoiceOperations.OptionalFields | src/main/java/com/mule/whisperer/internal/MuleChainVoiceOperations.java:283-303 | the prompt field is there exactly for a non-empty prompt, the language field exactly for a language other than "auto" (a `null` one is written as "null"), the temperature always |
| MuleChainVoiceOperations.FieldSplitsAfterPrefix | src/main/java/com/mule/whisperer/internal/MuleChainVoiceOperations.java:278-280 | a text field's text splits after the fixed delimiter and disposition prefix |
| MuleChainVoiceOperations.ParseTextFieldInverts | src/main/java/com/mule/whisperer/internal/MuleChainVoiceOperations.java:278-280 | a text field's name and value are read back from its text when the name holds no quote |
| MuleChainVoiceOperations.WithoutLineBreaks | src/main/java/com/mule/whisperer/internal/MuleChainVoiceOperations.java:146-148 | the joined lines hold no line terminator, and text without one is kept as it is |
| MuleChainVoiceOperations.TranscriptionRequest | src/main/java/com/mule/whisperer/internal/MuleChainVoiceOperations.java:126-130 | a POST to the transcriptions URL with the bearer header and the multipart Content-Type, whose boundary is the body's |
| MuleChainVoiceOperations.TranscriptionResponse | src/main/java/com/mule/whisperer/internal/MuleChainVoiceOperations.java:140-177 | a non-empty reply comes only from a 200 answer, and is then the JSON object of its body read line by line (empty when not a JSON object) |
| MuleChainVoiceOperations.SpeechToText | src/main/java/com/mule/whisperer/internal/MuleChainVoiceOperations.java:118-180 | a temperature that is not a Double or a missing file sends nothing and replies with an empty object; otherwise the request carries the encoded form and the reply is read from its answer |
| MuleChainVoiceOperations.SpeechPayload | src/main/java/com/mule/whisperer/internal/MuleChainVoiceOperations.java:191-196 | the payload holds only the five speech keys: the text as "input", and model, voice, response format and speed, each exactly when its value is not `null` |
| MuleChainVoiceOperations.TextToSpeech | src/main/java/com/mule/whisperer/internal/MuleChainVoiceOperations.java:187-253 | the request always goes out as a POST to the speech URL with the bearer and JSON content-type headers, its payload holding the text and the model, voice, response format and speed exactly when set; only a 200 answer with an output path writes the file, with the answer's bytes; the reply names the output path, and is empty only for a `null` one |
| MuleChainVoiceOperations.EngineParams | src/main/java/com/mule/whisperer/internal/MuleChainVoiceOperations.java:63-67 | thread count, language, translation and progress come from the local options; no temperature, no initial prompt |
| MuleChainVoiceOperations.Failure | src/main/java/com/mule/whisperer/internal/MuleChainVoiceOperations.java:102-105 | an exception becomes a single "error" entry with the prefix; an Error escapes; nothing is written |
| MuleChainVoiceOperations.Transcribed | src/main/java/com/mule/whisperer/internal/MuleChainVoiceOperations.java:79-96 | the reply after `readFile` is a single "error" or "transcription" entry, or an escaping Error |
| MuleChainVoiceOperations.Converting | src/main/java/com/mule/whisperer/internal/MuleChainVoiceOperations.java:71-79 | the same shape holds when the file is converted first |
| MuleChainVoiceOperations.Processed | src/main/java/com/mule/whisperer/internal/MuleChainVoiceOperations.java:63-100 | the same shape holds once a context is loaded |
| MuleChainVoiceOperations.SpeechToTextLocalSpec | src/main/java/com/mule/whisperer/internal/MuleChainVoiceOperations.java:45-109 | the reply is a single "error" or "transcription" entry, or an escaping Error; with local mode off it is the not-activated error |
| MuleChainVoiceOperations.CatchFailure | src/main/java/com/mule/whisperer/internal/MuleChainVoiceOperations.java:102-105 | the catch clause builds exactly the failure reply |
| MuleChainVoiceOperations.ReadAndReply | src/main/java/com/mule/whisperer/internal/MuleChainVoiceOperations.java:79-99 | reading, the engine run and the reply entry are those of the specification; it reaches the `ctx.close()` after the reply exactly when `readFile` returns samples |
| MuleChainVoiceOperations.SpeechToTextLocal | src/main/java/com/mule/whisperer/internal/MuleChainVoiceOperations.java:45-109 | the operation gives exactly the file system and reply of its specification, and closes the Whisper context exactly when `ClosesContext` holds: a context was created, the format is set, the conversion (if any) succeeded and the file was read |
| MuleChainVoiceOperations.ContextIsClosedOnlyOnTheNormalPath | src/main/java/com/mule/whisperer/internal/MuleChainVoiceOperations.java:58-103 | the context is closed only when the reply does not come from the `catch`; once a context exists, every path that skips `ctx.close()` (a null format, a failed conversion, a failed read) ends in the `catch`, so the context is left open |
| MuleChainVoiceOperations.FailureIsFromCatch | src/main/java/com/mule/whisperer/internal/MuleChainVoiceOperations.java:101-104 | a thrown exception is either the "Error during Speech-to-Text processing with Whisper: " entry or escapes the `catch` |
| MuleChainVoiceOperations.TranscribedIsFromCatch | src/main/java/com/mule/whisperer/internal/MuleChainVoiceOperations.java:79-96 | after `readFile`, the reply comes from the `catch` exactly when reading failed; an engine result code gives the "Transcription failed with code" entry, which the `catch` never produces |
| MuleChainVoiceOperations.InferenceDecidesTheReply | src/main/java/com/mule/whisperer/internal/MuleChainVoiceOperations.java:82-95 | a transcription entry means samples were read and the result code was 0, and holds the trimmed transcript; a non-zero code gives the error naming it |
| MuleChainVoiceOperations.TranscriptionIsTrimmed | src/main/java/com/mule/whisperer/internal/MuleChainVoiceOperations.java:95 | the transcription is the engine's transcript with exactly its leading and trailing characters up to U+0020 removed: a slice of it with only such characters outside, that is empty or begins and ends above U+0020 |
| MuleChainVoiceOperations.ErrorReplyNamesTheCode | src/main/java/com/mule/whisperer/internal/MuleChainVoiceOperations.java:84 | two error replies for non-zero codes are equal only for the same code |
| MuleChainVoiceOperations.NonWavIsReadFromTheWavPath | src/main/java/com/mule/whisperer/internal/MuleChainVoiceOperations.java:71-79 | a non-WAV file is converted to the same path with ".wav" in place of its extension, and that file is read |
| WhisperJNILocalConnectionProvider.StartFailure | src/main/java/org/mule/extension/whisperer/internal/connection/whisperjni/WhisperJNILocalConnectionProvider.java:140-142 | an IOException becomes a StartException caused by it; anything else leaves `start` unchanged |
| WhisperJNILocalConnectionProvider.Copied | src/main/java/org/mule/extension/whisperer/internal/connection/whisperjni/WhisperJNILocalConnectionProvider.java:98 | the copied file holds a prefix of the resource: all of it when the copy succeeds, and as many bytes as were written, at most the whole resource, when it fails |
| WhisperJNILocalConnectionProvider.CopyException | src/main/java/org/mule/extension/whisperer/internal/connection/whisperjni/WhisperJNILocalConnectionProvider.java:98 | the copy throws exactly when it fails, and then an IOException with the file system's message |
| WhisperJNILocalConnectionProvider.ExtractToTempFile | src/main/java/org/mule/extension/whisperer/internal/connection/whisperjni/WhisperJNILocalConnectionProvider.java:94-98 | a failing `createTempFile` writes nothing and names no file; otherwise the file is made at the temporary name chosen for the file name and holds the resource's bytes, or only those written before a failing copy, together with the copy's IOException; when that name was new, removing it gives the file system back |
| WhisperJNILocalConnectionProvider.WhisperJNILocalConnectionProvider.constructor | src/main/java/org/mule/extension/whisperer/internal/connection/whisperjni/WhisperJNILocalConnectionProvider.java:51-57 | the provider keeps its parameters and starts with no library, no context and no temporary copy |
| WhisperJNILocalConnectionProvider.WhisperJNILocalConnectionProvider.ResolveModelPath | src/main/java/org/mule/extension/whisperer/internal/connection/whisperjni/WhisperJNILocalConnectionProvider.java:81-113 | the new file system and the result are those of resolving the path, and `tempModelFile` records the temporary file exactly when one is created, even when the copy into it then fails |
| WhisperJNILocalConnectionProvider.WhisperJNILocalConnectionProvider.Start | src/main/java/org/mule/extension/whisperer/internal/connection/whisperjni/WhisperJNILocalConnectionProvider.java:115-143 | a load failure leaves everything as it was; a `null` model path fails after loading; otherwise the model is resolved, resolution and init failures become StartExceptions with the context unchanged, and success installs the context `init` returns |
| WhisperJNILocalConnectionProvider.WhisperJNILocalConnectionProvider.Stop | src/main/java/org/mule/extension/whisperer/internal/connection/whisperjni/WhisperJNILocalConnectionProvider.java:145-160 | the context is closed when there is one; the temporary copy, if recorded and still there, is deleted unless the delete fails; nothing else changes |
| WhisperJNILocalConnectionProvider.ResolvedModelExists | src/main/java/org/mule/extension/whisperer/internal/connection/whisperjni/WhisperJNILocalConnectionProvider.java:94-111 | a resolved model is a file of the resulting file system; a temporary copy is a file even after a failed copy and holds the start of the resource's bytes, and all of them when it is the resolved model |
| WhisperJNILocalConnectionProvider.OnlyClasspathModelsAreExtracted | src/main/java/org/mule/extension/whisperer/internal/connection/whisperjni/WhisperJNILocalConnectionProvider.java:82-104 | a temporary copy is made exactly for a "classpath://" path naming an existing resource whose temporary file can be created, and it is the resolved model exactly when the copy does not fail |
| WhisperJNILocalConnectionProvider.ResolveFailures | src/main/java/org/mule/extension/whisperer/internal/connection/whisperjni/WhisperJNILocalConnectionProvider.java:89-110 | resolving fails exactly for a missing resource, a temporary file that cannot be created, a failing copy or a missing file, always with an IOException: the missing resource or file is named, the file-system failures carry their own message, and only a failing copy leaves a file behind, recorded as the copy |
| WhisperJNILocalConnectionProvider.PlainPathsAreKept | src/main/java/org/mule/extension/whisperer/internal/connection/whisperjni/WhisperJNILocalConnectionProvider.java:105-111 | an existing file system path is its own model, and nothing changes |
| WhisperJNILocalConnectionProvider.CopyIsNamedAfterTheResource | src/main/java/org/mule/extension/whisperer/internal/connection/whisperjni/WhisperJNILocalConnectionProvider.java:94-95 | the copy's path ends in "-" and the resource's last path segment, and its own file name begins with "whisper-model-" |
| WhisperJNILocalConnectionProvider.ResolveChangesOnlyTheCopy | src/main/java/org/mule/extension/whisperer/internal/connection/whisperjni/WhisperJNILocalConnectionProvider.java:81-113 | resolving changes the file system by the temporary copy alone, whether or not the copy succeeds |
| WhisperJNILocalConnectionProvider.CopiesKeepTheResourceName | src/main/java/org/mule/extension/whisperer/internal/connection/whisperjni/WhisperJNILocalConnectionProvider.java:94-95 | with the same random part, resources with different file names get different copies |
| WhisperJNIRemoteModelParameters.Normalized | src/main/java/org/mule/extension/whisperer/internal/connection/whisperjni/WhisperJNIRemoteModelParameters.java:43 | the directory ends in exactly the one "/" it may lack: kept as it is when it ends in one, with one appended otherwise |
| WhisperJNIRemoteModelParameters.LastSegment | src/main/java/org/mule/extension/whisperer/internal/connection/whisperjni/WhisperJNIRemoteModelParameters.java:51-58 | the file name is the non-empty last segment of the path, holding no "/"; an empty segment is an IllegalArgumentException naming the URL |
| WhisperJNIRemoteModelParameters.WhisperJNIRemoteModelParameters.constructor | src/main/java/org/mule/extension/whisperer/internal/connection/whisperjni/WhisperJNIRemoteModelParameters.java:18-24 | both parameters start out `null` |
| WhisperJNIRemoteModelParameters.WhisperJNIRemoteModelParameters.SetModelUrl | src/main/java/org/mule/extension/whisperer/internal/connection/whisperjni/WhisperJNIRemoteModelParameters.java:30-32 | sets the URL and leaves the download path |
| WhisperJNIRemoteModelParameters.WhisperJNIRemoteModelParameters.SetDownloadPath | src/main/java/org/mule/extension/whisperer/internal/connection/whisperjni/WhisperJNIRemoteModelParameters.java:38-40 | sets the download path and leaves the URL |
| WhisperJNIRemoteModelParameters.WhisperJNIRemoteModelParameters.Parse | src/main/java/org/mule/extension/whisperer/internal/connection/whisperjni/WhisperJNIRemoteModelParameters.java:50-51 | a `null` URL and text that is not a URL give a MalformedURLException; a URL gives its path |
| WhisperJNIRemoteModelParameters.WhisperJNIRemoteModelParameters.ModelFileName | src/main/java/org/mule/extension/whisperer/internal/connection/whisperjni/WhisperJNIRemoteModelParameters.java:47-62 | a malformed URL is an IllegalArgumentException "Invalid URL: " wrapping the parse failure; otherwise the file name is the non-empty last path segment, or an IllegalArgumentException naming the URL |
| WhisperJNIRemoteModelParameters.WhisperJNIRemoteModelParameters.ModelFilePath | src/main/java/org/mule/extension/whisperer/internal/connection/whisperjni/WhisperJNIRemoteModelParameters.java:42-45 | a `null` directory fails first; a failing file name fails the same way; otherwise the path is the normalised directory followed by the file name, which is what follows its last "/" |
| WhisperJNIRemoteModelParameters.FilePathSplits | src/main/java/org/mule/extension/whisperer/internal/connection/whisperjni/WhisperJNIRemoteModelParameters.java:42-45 | a model path splits back into the normalised directory and the file name |
| WhisperJNIRemoteModelParameters.OnlyTheLastSegmentMatters | src/main/java/org/mule/extension/whisperer/internal/connection/whisperjni/WhisperJNIRemoteModelParameters.java:42-58 | two URLs whose paths end in the same segment store their models at the same path |
| Strings.ToLower | src/main/java/org/mule/extension/whisperer/internal/helpers/audio/AudioConverter.java:63 | the lower-cased format has the same length and maps each ASCII capital to its small letter, leaving every other character unchanged |
| Strings.TrimIsTrimmed | src/main/java/com/mule/whisperer/internal/MuleChainVoiceOperations.java:95 | what `trim` leaves is the slice of the text after its leading characters up to U+0020, with only such characters outside it, and is empty or begins and ends above U+0020 |
| Strings.TrimUnique | src/main/java/com/mule/whisperer/internal/MuleChainVoiceOperations.java:95 | any slice with only characters up to U+0020 outside it, empty or beginning and ending above U+0020, is what `trim` returns, so that description determines `trim` |
| Strings.TrimStart | src/main/java/com/mule/whisperer/internal/MuleChainVoiceOperations.java:95 | the result is a suffix of the text, empty or beginning above U+0020, and everything removed is at most U+0020 |
| Strings.TrimEnd | src/main/java/com/mule/whisperer/internal/MuleChainVoiceOperations.java:95 | the result is a prefix of the text, empty or ending above U+0020, and everything removed is at most U+0020 |
| Strings.NatToStringRoundTrip | src/main/java/org/mule/extension/whisperer/internal/connection/openai/OpenAiConnection.java:58 | reading the decimal digits of a rendered number back yields the number |
| Strings.IntToStringSign | src/main/java/org/mule/extension/whisperer/internal/connection/openai/OpenAiConnection.java:58 | a rendered int is non-empty and starts with '-' exactly when the number is negative, followed by the digits of its magnitude |
| Strings.IntToStringInjective | src/main/java/org/mule/extension/whisperer/internal/connection/openai/OpenAiConnection.java:58 | two status codes with the same rendering are equal |
| Strings.LastIndexOf | src/main/java/org/mule/extension/whisperer/internal/connection/whisperjni/WhisperJNIRemoteModelParameters.java:52 | the result is -1 or a position holding the character, and no later position holds it |
| Strings.AfterLast | src/main/java/org/mule/extension/whisperer/internal/connection/whisperjni/WhisperJNIRemoteModelParameters.java:52 | the substring after the last separator is a suffix free of the separator that is either the whole text or preceded by the separator |
| Strings.Utf8 | src/main/java/com/mule/whisperer/internal/MuleChainVoiceOperations.java:209 | the UTF-8 encoding takes between one and four bytes per character |
| Strings.Utf8Concat | src/main/java/com/mule/whisperer/internal/MuleChainVoiceOperations.java:259 | a UTF-8 writer emitting two strings in turn emits the encoding of their concatenation |
| Strings.Utf8Ascii | src/main/java/com/mule/whisperer/internal/MuleChainVoiceOperations.java:259 | an ASCII text is encoded one byte per character, each byte the character's code |

## Left out

- JLayer, Java Sound, FFmpeg/ByteDeco, the Jaffree `ffmpeg` command line and the native whisper engine are not modelled. Each appears as a function from its input to what the connector reads off it: frames, formats, samples, result codes and segments.
- The HTTP transport is not modelled: `HttpClient.send`/`sendAsync`, the `HttpURLConnection` streams and the `MultipartHttpEntity` encoding. A request is a value and a response is a status and a body given as input.
- JSON text is not modelled. `new JSONObject(text)`, `JSONObject.toString()` and `IOUtils.toString` are parameters, so only the JSON field maps are modelled.
- Floating point is not modelled. Sample scaling is done over reals, and `Double.toString` of the temperature and the `floatValue() > 0` test are taken on their real values.
- `AudioFileReader.ReadFile`: the recursion through `convertToMono16kHz` is bounded by an explicit number of stack frames, and running out of them is a `StackOverflowError`. The JVM's actual stack depth is not modelled.
- The exact detail messages of `NullPointerException`s raised by the class library are not modelled; they are the empty string.
- `Common.CompletionWrap` and the other one-argument wraps (`new CompletionException(cause)`, `new TranscriptionException(e)`, `new ConnectionException(e)`, `new RuntimeException(e)`, `new StartException(e, this)`): Java takes the detail message from `cause.toString()`, which starts with the cause's class name; the model keeps the cause's own message.
- `Mp3ToWavConverter.ConvertMp3ToWav`: a `JavaLayerException` thrown partway through decoding is modelled as an interruption after the decoded frames.
- An input path equal to the output path of a converter (aliasing) is not distinguished. The model reads a whole file before it writes one.
- Write failures of the output file in `ByteDecoConverter`, the converters and `MuleChainVoiceOperations.TextToSpeech` (a failing `FileOutputStream` or `AudioSystem.write`) are not modelled.
- `LocalInference.BufferToFile`: the temporary audio file can fail to open, but a write that fails after the open (a full disk) is not modelled; the model writes every byte the stream delivered.
- `Http.OptDouble`: org.json's `optDouble` also converts a string that holds a number; the model gives a value only for a JSON number.
- `Http.TextPart`: `value.getBytes()` encodes with the platform's default charset; the model encodes as UTF-8 (`Strings.Utf8`), so the two agree only where the default charset is UTF-8.
- `SpeechOperations.Transcribe`, `SpeechOperations.GenerateSpeech`: they take the future a connection returns, so a connection that throws before returning one is not composed with them; in Java that exception propagates out of the operation before any callback is registered.
- `WhisperJNILocalConnectionProvider.ExtractToTempFile`: a copy that fails part-way leaves the bytes written so far, as an input count; the file system's own choice of how many is not modelled. The temporary name is a fixed function of the random part, so the model does not capture that `Files.createTempFile` always picks a name no file has. `ResolveChangesOnlyTheCopy` states what resolving leaves behind only for a name that was new.
- In `MuleChainVoiceOperations`, `PrintWriter` swallows `IOException`s, so write errors of the multipart body cannot reach the caller. The streams are modelled as never failing.
- `CompletableFuture` scheduling, threads and the `synchronized` double-checked locking of the providers are not modelled.
- Logging, `printStackTrace`, `System.out` and `deleteOnExit` are not modelled because they have no effect the connector observes.
- `WhisperJNICloudhubConfigurer`, `WhisperModelConfigurer` and `WhisperJNIRemoteConnectionProvider` are not part of this model. They set up files and downloads, and they call code that is not part of this model.
- `connect`, `disconnect` and `validate` of the local provider are not modelled: `connect` passes the provider's fields to the `WhisperJNIConnection` constructor (which is modelled), and the other two do nothing.
- The CloudHub branch of `start` is not modelled; it runs `WhisperJNICloudhubConfigurer.setup()` under a lock when the dependency directory is missing.
- Path handling is simplified: `Path.getParent`, `resolve`, `getFileName` and `toAbsolutePath` work on '/'-separated text, without the normalisation of `.`, `..`, repeated separators or a trailing separator.
- `URI.resolve` is modelled for a relative path without a scheme only, which is the only form the connections pass (RFC 3986, section 5.2.3).
- `Files.exists` is modelled on files only; a directory is not in the file-system map.
- The ownership of the temporary audio files is not modelled. The connections never delete them, and the model does not claim they are cleaned up.
- `LocalWhisperConnection` and `MuleChainVoiceOperations` call `com.mule.whisperer.internal.helpers.AudioUtils` and `AudioFileReader`, which are not part of this model. They are modelled with the `org.mule.extension.whisperer` helpers of the same names.
- The `com.mule.whisperer` `WhisperConnection` interface declares a two-argument `transcribe` returning a future of text. The model follows the three-argument, result-returning form that `LocalWhisperConnection` and `SpeechOperations` use.
- The parameter classes (`STTParamsModelDetails` and its relatives) are records of their getters' values. Mule's parameter resolution and defaults are not modelled.
- `Strings.ToLower`, `Strings.ToUpper`: case mapping covers ASCII letters only, which is all the format names and media types use.
- `LocalInference.ReplaceExtension`: Java's `$` also matches before a final line terminator. That case is not modelled because the connections' paths never end in one.
