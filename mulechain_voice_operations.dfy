/** The operations of the first `com.mule.whisperer` connector, which talk
    to the OpenAI REST API through `HttpURLConnection` and to the native
    Whisper library directly: a hand-written `multipart/form-data` body for
    speech to text, a JSON request for text to speech, and a local
    transcription that answers with a small JSON object. */
module MuleChainVoiceOperations {
  import opened Common
  import opened Strings
  import opened Media
  import opened Http
  import opened LocalInference
  import OpenAiApi
  import AudioFileReader
  import Mp3ToWavConverter

  const ApiUrl := "https://api.openai.com/v1/audio/"
  const CopyBufferSize := 4096

  // ------------------------------------------------------------ streams

  /** An `OutputStream`: the request body of the connection, or a file
      being written; the bytes written so far. */
  class OutputStream {
    var written: seq<Byte>

    constructor()
      ensures written == []
    {
      written := [];
    }

    method Write(data: seq<Byte>)
      modifies this
      ensures written == old(written) + data
    {
      written := written + data;
    }
  }

  /** `new PrintWriter(new OutputStreamWriter(os, "UTF-8"), true)`: appended
      text waits in the writer, and a flush sends its UTF-8 encoding to the
      stream. Appending never flushes by itself. */
  class Writer {
    const os: OutputStream
    var pending: string

    constructor(os: OutputStream)
      ensures this.os == os && pending == []
    {
      this.os := os;
      pending := [];
    }

    method Append(s: string)
      modifies this
      ensures pending == old(pending) + s
    {
      pending := pending + s;
    }

    method Flush()
      modifies this, os
      ensures os.written == old(os.written) + Utf8(old(pending)) && pending == []
    {
      os.Write(Utf8(pending));
      pending := [];
    }
  }

  /** The `read(buffer)`/`write(buffer, 0, bytesRead)` loop: each read
      delivers up to `CopyBufferSize` bytes, written as read, until the end
      of the input. */
  method Copy(data: seq<Byte>, out: OutputStream)
    modifies out
    ensures out.written == old(out.written) + data
  {
    var position := 0;
    while position < |data|
      invariant 0 <= position <= |data|
      invariant out.written == old(out.written) + data[..position]
    {
      var bytesRead := if |data| - position < CopyBufferSize then |data| - position else CopyBufferSize;
      assert data[..position + bytesRead] == data[..position] + data[position..position + bytesRead];
      out.Write(data[position..position + bytesRead]);
      position := position + bytesRead;
    }
    assert data[..position] == data;
  }

  // ---------------------------------------------------------- multipart

  const Boundary := "----WebKitFormBoundary7MA4YWxkTrZu0gW"
  const Crlf := "\r\n"
  const MultipartPrefix := "multipart/form-data; boundary="

  /** The Content-Type header of the transcription request. */
  const MultipartContentType := MultipartPrefix + Boundary

  /** The line that opens every part (section 5.1.1 of RFC 2046). */
  const DelimiterLine := "--" + Boundary + Crlf

  /** The close delimiter that ends the body. */
  const CloseDelimiter := "--" + Boundary + "--" + Crlf

  const DispositionPrefix := "Content-Disposition: form-data; name=\""
  const NameEnd := "\"\r\n\r\n"
  const FileNameStart := "\"; filename=\""
  const FileNameEnd := "\"\r\n"
  const AudioMpeg := "audio/mpeg"

  /** The boundary parameter of a `multipart/form-data` Content-Type. */
  function HeaderBoundary(contentType: string): (b: Option<string>)
    ensures b.Some? ==> contentType == MultipartPrefix + b.value
  {
    if StartsWith(contentType, MultipartPrefix) then Some(contentType[|MultipartPrefix|..]) else None
  }

  /** A form field as the serialiser writes it: the file with its name,
      declared type and raw bytes, or a text value (section 4.2 of RFC
      7578). */
  datatype FormField =
    | FileField(name: string, fileName: string, contentType: string, content: seq<Byte>)
    | TextField(name: string, value: string)

  /** The disposition line of a text field and the blank line after it. */
  function Disposition(name: string): string {
    DispositionPrefix + name + NameEnd
  }

  /** The content type line of a file field and the blank line after it. */
  function ContentTypeLine(contentType: string): string {
    "Content-Type: " + contentType + Crlf + Crlf
  }

  /** The disposition line of a file field. */
  function FileDisposition(name: string, fileName: string): string {
    DispositionPrefix + name + FileNameStart + fileName + FileNameEnd
  }

  /** Everything before the raw bytes of a file field. */
  function FileHead(name: string, fileName: string, contentType: string): string {
    DelimiterLine + FileDisposition(name, fileName) + ContentTypeLine(contentType)
  }

  /** The text of a whole text field. */
  function TextFieldText(name: string, value: string): string {
    DelimiterLine + Disposition(name) + value + Crlf
  }

  /** The bytes of one field; the raw file bytes are followed by CRLF. */
  function FieldBytes(f: FormField): seq<Byte> {
    match f
    case FileField(name, fileName, contentType, content) =>
      Utf8(FileHead(name, fileName, contentType)) + content + Utf8(Crlf)
    case TextField(name, value) => Utf8(TextFieldText(name, value))
  }

  /** The fields one after the other. */
  function Parts(fields: seq<FormField>): seq<Byte> {
    if fields == [] then [] else Parts(fields[..|fields| - 1]) + FieldBytes(fields[|fields| - 1])
  }

  /** A whole body: the fields, then the close delimiter. */
  function Encode(fields: seq<FormField>): seq<Byte> {
    Parts(fields) + Utf8(CloseDelimiter)
  }

  function FieldNames(fields: seq<FormField>): (names: seq<string>)
    ensures |names| == |fields|
    ensures forall i :: 0 <= i < |fields| ==> names[i] == fields[i].name
  {
    if fields == [] then [] else FieldNames(fields[..|fields| - 1]) + [fields[|fields| - 1].name]
  }

  /** `writer.append(s)` of a possibly `null` string. */
  function NullText(s: Option<string>): string {
    s.GetOr("null")
  }

  predicate HasPrompt(prompt: Option<string>) {
    prompt.Some? && prompt.value != []
  }

  /** A field written only when `present` holds. */
  function Optional(present: bool, f: FormField): seq<FormField> {
    if present then [f] else []
  }

  /** The text fields after the file: the model, the prompt when there is a
      non-empty one, the response format, the temperature, and the language
      unless it is "auto". */
  function TextFields(model: Option<string>, prompt: Option<string>, responseFormat: Option<string>,
                      temperature: string, language: Option<string>): seq<FormField>
  {
    [TextField("model", NullText(model))] +
    Optional(HasPrompt(prompt), TextField("prompt", prompt.GetOr(""))) +
    [TextField("response_format", NullText(responseFormat)), TextField("temperature", temperature)] +
    Optional(language != Some("auto"), TextField("language", NullText(language)))
  }

  /** The fields `writeMultipartData` writes, in order: the file as
      audio/mpeg, then the text fields. */
  function Fields(fileName: string, content: seq<Byte>, model: Option<string>, prompt: Option<string>,
                  responseFormat: Option<string>, temperature: string, language: Option<string>): seq<FormField>
  {
    [FileField("file", fileName, AudioMpeg, content)] + TextFields(model, prompt, responseFormat, temperature, language)
  }

  lemma PartsSnoc(fields: seq<FormField>, f: FormField)
    ensures Parts(fields + [f]) == Parts(fields) + FieldBytes(f)
  {
    assert (fields + [f])[..|fields|] == fields;
  }

  lemma PartsSingle(f: FormField)
    ensures Parts([f]) == FieldBytes(f)
  {
    PartsSnoc([], f);
    assert [] + [f] == [f];
  }

  /** The bytes of the model field and the optional prompt field, in the
      order they are written. */
  function LeadingBytes(model: Option<string>, prompt: Option<string>): seq<Byte> {
    FieldBytes(TextField("model", NullText(model))) +
    Parts(Optional(HasPrompt(prompt), TextField("prompt", prompt.GetOr(""))))
  }

  /** The bytes of the response format, temperature and optional language
      fields, in the order they are written. */
  function TrailingBytes(responseFormat: Option<string>, temperature: string, language: Option<string>): seq<Byte> {
    FieldBytes(TextField("response_format", NullText(responseFormat))) + FieldBytes(TextField("temperature", temperature)) +
    Parts(Optional(language != Some("auto"), TextField("language", NullText(language))))
  }

  lemma PartsPair(r: FormField, t: FormField)
    ensures Parts([r, t]) == FieldBytes(r) + FieldBytes(t)
  {
    assert [r, t][..1] == [r];
    PartsSingle(r);
  }

  /** The bytes of a list shaped like the text fields, field by field. */
  lemma PartsOfFive(m: FormField, p: seq<FormField>, r: FormField, t: FormField, l: seq<FormField>)
    ensures Parts([m] + p + [r, t] + l) == (FieldBytes(m) + Parts(p)) + (FieldBytes(r) + FieldBytes(t) + Parts(l))
  {
    var first := [m] + p;
    var pair := [r, t];
    PartsConcat(first + pair, l);
    PartsConcat(first, pair);
    PartsConcat([m], p);
    PartsSingle(m);
    assert Parts(first) == FieldBytes(m) + Parts(p);
    PartsPair(r, t);
    assert Parts(first + pair + l) == (Parts(first) + Parts(pair)) + Parts(l);
    Assoc(FieldBytes(m) + Parts(p), FieldBytes(r) + FieldBytes(t), Parts(l));
  }

  /** The text fields' bytes are the leading and the trailing ones. */
  lemma TextFieldsBytes(model: Option<string>, prompt: Option<string>, responseFormat: Option<string>,
                        temperature: string, language: Option<string>)
    ensures Parts(TextFields(model, prompt, responseFormat, temperature, language)) ==
      LeadingBytes(model, prompt) + TrailingBytes(responseFormat, temperature, language)
  {
    PartsOfFive(TextField("model", NullText(model)),
                Optional(HasPrompt(prompt), TextField("prompt", prompt.GetOr(""))),
                TextField("response_format", NullText(responseFormat)), TextField("temperature", temperature),
                Optional(language != Some("auto"), TextField("language", NullText(language))));
  }

  lemma Regroup4<T>(o: seq<T>, a: seq<T>, b: seq<T>, c: seq<T>, d: seq<T>, e: seq<T>)
    ensures o + ((((a + b) + c) + d) + e) == o + a + b + c + d + e
  {
  }

  /** The bytes of a whole body: the file's headers, its bytes, CRLF, the
      text fields and the close delimiter. */
  lemma BodyLayout(o: seq<Byte>, fileName: string, content: seq<Byte>, texts: seq<FormField>)
    ensures o + Encode([FileField("file", fileName, AudioMpeg, content)] + texts) ==
      o + Utf8(FileHead("file", fileName, AudioMpeg)) + content + Utf8(Crlf) + Parts(texts) + Utf8(CloseDelimiter)
  {
    var f := FileField("file", fileName, AudioMpeg, content);
    PartsConcat([f], texts);
    PartsSingle(f);
    var head := Utf8(FileHead("file", fileName, AudioMpeg));
    assert FieldBytes(f) == head + content + Utf8(Crlf);
    assert Encode([f] + texts) == (((head + content) + Utf8(Crlf)) + Parts(texts)) + Utf8(CloseDelimiter);
    Regroup4(o, head, content, Utf8(Crlf), Parts(texts), Utf8(CloseDelimiter));
  }

  /** `append("--").append(boundary).append("\r\n")`. */
  method AppendDelimiter(writer: Writer)
    modifies writer
    ensures writer.pending == old(writer.pending) + DelimiterLine
  {
    writer.Append("--");
    writer.Append(Boundary);
    writer.Append(Crlf);
  }

  /** One of the repeated blocks of three `append` lines and a flush. */
  method WriteTextField(writer: Writer, name: string, value: string)
    requires writer.pending == []
    modifies writer, writer.os
    ensures writer.pending == []
    ensures writer.os.written == old(writer.os.written) + FieldBytes(TextField(name, value))
  {
    AppendDelimiter(writer);
    assert writer.pending == DelimiterLine;
    writer.Append(Disposition(name));
    writer.Append(value);
    writer.Append(Crlf);
    assert writer.pending == DelimiterLine + Disposition(name) + value + Crlf;
    writer.Flush();
  }

  /** `append(...name=\"file\"; filename=\"").append(name).append("\"\r\n")`. */
  method AppendFileDisposition(writer: Writer, name: string, fileName: string)
    modifies writer
    ensures writer.pending == old(writer.pending) + FileDisposition(name, fileName)
  {
    writer.Append(DispositionPrefix + name + FileNameStart);
    writer.Append(fileName);
    writer.Append(FileNameEnd);
  }

  /** The file part's headers, flushed before the file is opened. */
  method WriteFileHead(writer: Writer, fileName: string)
    requires writer.pending == []
    modifies writer, writer.os
    ensures writer.pending == []
    ensures writer.os.written == old(writer.os.written) + Utf8(FileHead("file", fileName, AudioMpeg))
  {
    ghost var start := writer.os.written;
    AppendDelimiter(writer);
    assert writer.pending == DelimiterLine;
    AppendFileDisposition(writer, "file", fileName);
    ghost var head := FileHead("file", fileName, AudioMpeg);
    writer.Append(ContentTypeLine(AudioMpeg));
    assert writer.pending == head;
    assert writer.os.written == start;
    writer.Flush();
  }

  /** The CRLF after the file's bytes. */
  method WriteLineEnd(writer: Writer)
    requires writer.pending == []
    modifies writer, writer.os
    ensures writer.pending == []
    ensures writer.os.written == old(writer.os.written) + Utf8(Crlf)
  {
    writer.Append(Crlf);
    assert writer.pending == Crlf;
    writer.Flush();
  }

  /** `append("--").append(boundary).append("--\r\n")`. */
  method WriteCloseDelimiter(writer: Writer)
    requires writer.pending == []
    modifies writer, writer.os
    ensures writer.pending == []
    ensures writer.os.written == old(writer.os.written) + Utf8(CloseDelimiter)
  {
    writer.Append("--");
    writer.Append(Boundary);
    writer.Append("--" + Crlf);
    assert writer.pending == CloseDelimiter;
    writer.Flush();
  }

  /** The model and, when there is a non-empty one, the prompt. */
  method WriteLeadingFields(writer: Writer, model: Option<string>, prompt: Option<string>)
    requires writer.pending == []
    modifies writer, writer.os
    ensures writer.pending == []
    ensures writer.os.written == old(writer.os.written) + LeadingBytes(model, prompt)
  {
    ghost var start := writer.os.written;
    ghost var m := FieldBytes(TextField("model", NullText(model)));
    WriteTextField(writer, "model", NullText(model));
    if prompt != None && prompt.GetOr("") != [] {
      WriteTextField(writer, "prompt", prompt.GetOr(""));
      PartsSingle(TextField("prompt", prompt.GetOr("")));
      Assoc(start, m, FieldBytes(TextField("prompt", prompt.GetOr(""))));
    }
  }

  /** The response format, the temperature and, unless it is "auto", the
      language. */
  method WriteTrailingFields(writer: Writer, responseFormat: Option<string>, temperature: string, language: Option<string>)
    requires writer.pending == []
    modifies writer, writer.os
    ensures writer.pending == []
    ensures writer.os.written == old(writer.os.written) + TrailingBytes(responseFormat, temperature, language)
  {
    ghost var start := writer.os.written;
    ghost var r := FieldBytes(TextField("response_format", NullText(responseFormat)));
    ghost var t := FieldBytes(TextField("temperature", temperature));
    WriteTextField(writer, "response_format", NullText(responseFormat));
    WriteTextField(writer, "temperature", temperature);
    Assoc(start, r, t);
    if !(language == Some("auto")) {
      WriteTextField(writer, "language", NullText(language));
      PartsSingle(TextField("language", NullText(language)));
      Assoc(start, r + t, FieldBytes(TextField("language", NullText(language))));
    }
  }

  /** The parts after the file, in the order of the source. */
  method WriteTextFields(writer: Writer, model: Option<string>, prompt: Option<string>,
                         responseFormat: Option<string>, temperature: string, language: Option<string>)
    requires writer.pending == []
    modifies writer, writer.os
    ensures writer.pending == []
    ensures writer.os.written == old(writer.os.written) + Parts(TextFields(model, prompt, responseFormat, temperature, language))
  {
    ghost var start := writer.os.written;
    WriteLeadingFields(writer, model, prompt);
    WriteTrailingFields(writer, responseFormat, temperature, language);
    TextFieldsBytes(model, prompt, responseFormat, temperature, language);
    Assoc(start, LeadingBytes(model, prompt), TrailingBytes(responseFormat, temperature, language));
  }

  /** `writeMultipartData`: the file part, whose bytes are copied from the
      file, then the text parts and the close delimiter. A file that does
      not exist fails the opening of its stream once the file part's
      headers are written. */
  method WriteMultipartData(os: OutputStream, fs: FileSystem, audioFile: string, model: Option<string>,
                            prompt: Option<string>, responseFormat: Option<string>, temperature: string,
                            language: Option<string>)
    returns (r: Result<()>)
    modifies os
    ensures audioFile in fs ==>
      r == Ok(()) &&
      os.written == old(os.written) +
        Encode(Fields(AfterLast(audioFile, '/'), fs[audioFile], model, prompt, responseFormat, temperature, language))
    ensures audioFile !in fs ==>
      r == Err(FileNotFound(audioFile)) &&
      os.written == old(os.written) + Utf8(FileHead("file", AfterLast(audioFile, '/'), AudioMpeg))
  {
    var writer := new Writer(os);
    var fileName := AfterLast(audioFile, '/');
    WriteFileHead(writer, fileName);
    if audioFile !in fs {
      return Err(FileNotFound(audioFile));
    }
    Copy(fs[audioFile], os);
    WriteLineEnd(writer);
    WriteTextFields(writer, model, prompt, responseFormat, temperature, language);
    WriteCloseDelimiter(writer);
    BodyLayout(old(os.written), fileName, fs[audioFile], TextFields(model, prompt, responseFormat, temperature, language));
    r := Ok(());
  }

  // -------------------------------------------------- multipart lemmas

  /** The body's delimiters use the boundary the Content-Type header
      declares. */
  lemma HeaderDeclaresTheBodyBoundary()
    ensures HeaderBoundary(MultipartContentType) == Some(Boundary)
    ensures DelimiterLine == "--" + HeaderBoundary(MultipartContentType).value + Crlf
    ensures CloseDelimiter == "--" + HeaderBoundary(MultipartContentType).value + "--" + Crlf
  {
  }

  /** Joined field lists are joined bodies. */
  lemma {:induction false} PartsConcat(a: seq<FormField>, b: seq<FormField>)
    ensures Parts(a + b) == Parts(a) + Parts(b)
    decreases |b|
  {
    if b == [] {
      assert a + b == a;
    } else {
      var init, last := b[..|b| - 1], b[|b| - 1];
      assert b == init + [last];
      assert a + b == (a + init) + [last];
      PartsSnoc(a + init, last);
      PartsConcat(a, init);
      PartsSnoc(init, last);
      Assoc(Parts(a), Parts(init), FieldBytes(last));
    }
  }

  /** Every field begins with the delimiter line. */
  lemma FieldStartsWithDelimiter(f: FormField)
    ensures |Utf8(DelimiterLine)| <= |FieldBytes(f)|
    ensures FieldBytes(f)[..|Utf8(DelimiterLine)|] == Utf8(DelimiterLine)
  {
    match f
    case FileField(name, fileName, contentType, content) =>
      var rest := DispositionPrefix + name + FileNameStart + fileName + FileNameEnd + "Content-Type: " + contentType + Crlf + Crlf;
      assert FileHead(name, fileName, contentType) == DelimiterLine + rest;
      Utf8Concat(DelimiterLine, rest);
    case TextField(name, value) =>
      var rest := DispositionPrefix + name + NameEnd + value + Crlf;
      assert TextFieldText(name, value) == DelimiterLine + rest;
      Utf8Concat(DelimiterLine, rest);
  }

  lemma Slices<T>(a: seq<T>, b: seq<T>, c: seq<T>)
    ensures (a + b + c)[..|a|] == a
    ensures (a + b + c)[|a|..|a| + |b|] == b
    ensures (a + b + c)[|a| + |b|..] == c
  {
  }

  /** The body around its i-th field: the fields before it, the field, and
      the fields after it followed by the close delimiter. */
  lemma FieldPosition(fields: seq<FormField>, i: int)
    requires 0 <= i < |fields|
    ensures Encode(fields) == Parts(fields[..i]) + FieldBytes(fields[i]) + (Parts(fields[i + 1..]) + Utf8(CloseDelimiter))
  {
    var before, f, rest := fields[..i], fields[i], fields[i + 1..];
    assert fields == (before + [f]) + rest;
    PartsConcat(before + [f], rest);
    PartsSnoc(before, f);
    Assoc(Parts(before) + FieldBytes(f), Parts(rest), Utf8(CloseDelimiter));
  }

  /** The raw file bytes stand right after the file part's headers and are
      followed by CRLF. */
  lemma FileFieldLayout(fileName: string, content: seq<Byte>)
    ensures var head := Utf8(FileHead("file", fileName, AudioMpeg));
      var bytes := FieldBytes(FileField("file", fileName, AudioMpeg, content));
      bytes[..|head|] == head && bytes[|head|..|head| + |content|] == content && bytes[|head| + |content|..] == Utf8(Crlf)
  {
    Slices(Utf8(FileHead("file", fileName, AudioMpeg)), content, Utf8(Crlf));
  }

  /** The file part's headers end by declaring audio/mpeg, whatever the
      file holds. */
  lemma FileHeadDeclaresMpeg(fileName: string)
    ensures EndsWith(FileHead("file", fileName, AudioMpeg), ContentTypeLine(AudioMpeg))
    ensures ContentTypeLine(AudioMpeg) == "Content-Type: audio/mpeg\r\n\r\n"
  {
    var pre := DelimiterLine + FileDisposition("file", fileName);
    Slices(pre, ContentTypeLine(AudioMpeg), []);
    assert FileHead("file", fileName, AudioMpeg) == pre + ContentTypeLine(AudioMpeg) + [];
  }

  /** The fields come in the order file, model, the optional prompt,
      response_format, temperature and the optional language. */
  lemma FieldOrder(fileName: string, content: seq<Byte>, model: Option<string>, prompt: Option<string>,
                   responseFormat: Option<string>, temperature: string, language: Option<string>)
    ensures FieldNames(Fields(fileName, content, model, prompt, responseFormat, temperature, language)) ==
      ["file", "model"] + (if HasPrompt(prompt) then ["prompt"] else []) + ["response_format", "temperature"] +
      (if language != Some("auto") then ["language"] else [])
  {
    var fields := Fields(fileName, content, model, prompt, responseFormat, temperature, language);
    var names := ["file", "model"] + (if HasPrompt(prompt) then ["prompt"] else []) + ["response_format", "temperature"] +
      (if language != Some("auto") then ["language"] else []);
    assert |names| == |fields|;
    assert forall i :: 0 <= i < |fields| ==> FieldNames(fields)[i] == names[i];
  }

  /** The prompt part is there exactly for a non-empty prompt, the language
      part exactly for a language other than "auto" (a `null` language is
      written as "null"), and the temperature part always. */
  lemma OptionalFields(fileName: string, content: seq<Byte>, model: Option<string>, prompt: Option<string>,
                       responseFormat: Option<string>, temperature: string, language: Option<string>)
    ensures var fields := Fields(fileName, content, model, prompt, responseFormat, temperature, language);
      ("prompt" in FieldNames(fields) <==> HasPrompt(prompt)) &&
      ("language" in FieldNames(fields) <==> language != Some("auto")) &&
      TextField("temperature", temperature) in fields &&
      (language.None? ==> TextField("language", "null") in fields) &&
      (HasPrompt(prompt) ==> TextField("prompt", prompt.value) in fields)
  {
    FieldOrder(fileName, content, model, prompt, responseFormat, temperature, language);
    var fields := Fields(fileName, content, model, prompt, responseFormat, temperature, language);
    var k := if HasPrompt(prompt) then 1 else 0;
    assert fields[3 + k] == TextField("temperature", temperature);
  }

  /** A text field's name and value can be read back from its text when the
      name holds no quote. */
  function ParseTextField(text: string): (r: Option<(string, string)>)
  {
    var head := DelimiterLine + DispositionPrefix;
    if !StartsWith(text, head) then None
    else
      var rest := text[|head|..];
      var k := IndexOf(rest, '"');
      if k < 0 || k + |NameEnd| > |rest| - |Crlf| || rest[k..k + |NameEnd|] != NameEnd || !EndsWith(rest, Crlf) then None
      else Some((rest[..k], rest[k + |NameEnd|..|rest| - |Crlf|]))
  }

  /** A text field regrouped as the fixed prefix and what follows it. */
  lemma FieldSplitsAfterPrefix(delimiter: string, prefix: string, name: string, nameEnd: string,
                               value: string, crlf: string)
    ensures delimiter + (prefix + name + nameEnd) + value + crlf ==
      (delimiter + prefix) + (name + nameEnd + value + crlf)
  {
    var h := delimiter + prefix;
    Assoc(delimiter, prefix + name, nameEnd);
    Assoc(delimiter, prefix, name);
    Assoc(h, name + nameEnd + value, crlf);
    Assoc(h, name + nameEnd, value);
    Assoc(h, name, nameEnd);
  }

  lemma ParseTextFieldInverts(name: string, value: string)
    requires forall i :: 0 <= i < |name| ==> name[i] != '"'
    ensures ParseTextField(TextFieldText(name, value)) == Some((name, value))
  {
    var head := DelimiterLine + DispositionPrefix;
    var text := TextFieldText(name, value);
    var rest := name + NameEnd + value + Crlf;
    FieldSplitsAfterPrefix(DelimiterLine, DispositionPrefix, name, NameEnd, value, Crlf);
    assert text == head + rest;
    assert text[|head|..] == rest;
    assert rest[|name|] == '"';
    assert IndexOf(rest, '"') == |name|;
    assert rest[|name|..|name| + |NameEnd|] == NameEnd;
    assert rest[..|name|] == name;
    assert rest[|name| + |NameEnd|..|rest| - |Crlf|] == value;
  }

  // ------------------------------------------------------ speech to text

  /** The options of `STTParamsModelDetails` the request uses, each possibly
      `null`; the temperature is the text `String.valueOf` gives for the
      `Double`, or `None` when the configured number is not a `Double` and
      the cast fails. */
  datatype SttOptions = SttOptions(
    modelName: Option<string>,
    responseFormat: Option<string>,
    temperature: Option<string>,
    language: Option<string>)

  /** What `BufferedReader.readLine` hands over, line after line: the text
      without its line terminators. */
  function WithoutLineBreaks(s: string): (r: string)
    ensures |r| <= |s|
    ensures forall i :: 0 <= i < |r| ==> r[i] != '\n' && r[i] != '\r'
    ensures (forall i :: 0 <= i < |s| ==> s[i] != '\n' && s[i] != '\r') ==> r == s
  {
    if s == [] then []
    else if s[|s| - 1] == '\n' || s[|s| - 1] == '\r' then WithoutLineBreaks(s[..|s| - 1])
    else WithoutLineBreaks(s[..|s| - 1]) + [s[|s| - 1]]
  }

  /** The request `speechToText` posts: the key as a bearer token, the
      multipart Content-Type with its boundary, and the body. */
  function TranscriptionRequest(apiKey: string, body: seq<Byte>): (request: HttpRequest)
    ensures request.verb == POST && request.uri == ApiUrl + "transcriptions"
    ensures request.headers == [Authorization(apiKey), ("Content-Type", MultipartContentType)]
    ensures HeaderBoundary(request.headers[1].1) == Some(Boundary)
    ensures request.entity == Bytes(body)
  {
    HttpRequest(POST, ApiUrl + "transcriptions", [Authorization(apiKey), ("Content-Type", MultipartContentType)], Bytes(body))
  }

  /** The JSON `speechToText` answers with: the parsed body of a 200 answer,
      and an empty object for any other status, a body that is not a JSON
      object, or a broken exchange. */
  function TranscriptionResponse(exchange: Exchange, support: TextSupport): (reply: map<string, Json>)
    ensures reply != map[] ==> exchange.Answered? && exchange.response.status == 200
    ensures exchange.Answered? && exchange.response.status == 200 ==>
      reply == support.parse(WithoutLineBreaks(support.decode(exchange.response.content))).GetOr(map[])
  {
    match exchange
    case Answered(response) =>
      if response.status == 200 then
        match support.parse(WithoutLineBreaks(support.decode(response.content)))
        case Some(fields) => fields
        case None => map[]
      else map[]
    case Broken(_) => map[]
  }

  /** `speechToText`: the body is written before the request goes out; a
      temperature that is not a `Double` or an audio file that does not
      exist ends the operation with an empty object and nothing sent. */
  method SpeechToText(fs: FileSystem, client: Client, support: TextSupport, apiKey: string,
                      audioFilePath: string, finetuningPrompt: Option<string>, options: SttOptions)
    returns (sent: Option<HttpRequest>, reply: map<string, Json>)
    ensures options.temperature.None? || audioFilePath !in fs ==> sent.None? && reply == map[]
    ensures options.temperature.Some? && audioFilePath in fs ==>
      sent == Some(TranscriptionRequest(apiKey,
        Encode(Fields(AfterLast(audioFilePath, '/'), fs[audioFilePath], options.modelName, finetuningPrompt,
                      options.responseFormat, options.temperature.value, options.language)))) &&
      reply == TranscriptionResponse(client(sent.value), support)
  {
    if options.temperature.None? {
      return None, map[];
    }
    var os := new OutputStream();
    var written := WriteMultipartData(os, fs, audioFilePath, options.modelName, finetuningPrompt,
                                      options.responseFormat, options.temperature.value, options.language);
    assert written.Ok? ==> os.written == Encode(Fields(AfterLast(audioFilePath, '/'), fs[audioFilePath], options.modelName,
      finetuningPrompt, options.responseFormat, options.temperature.value, options.language));
    if written.Err? {
      return None, map[];
    }
    var request := TranscriptionRequest(apiKey, os.written);
    sent := Some(request);
    reply := TranscriptionResponse(client(request), support);
  }

  // ------------------------------------------------------ text to speech

  const OutputDirectoryKey := "outputDirectory"

  /** The JSON payload of `textToSpeech`; a `null` value leaves its key
      out. */
  method SpeechPayload(text: Option<string>, params: OpenAiApi.TtsParams) returns (payload: map<string, Json>)
    ensures OpenAiApi.SpeechFields(payload, OpenAiApi.Text(text), params)
  {
    var jsonPayload := new JsonObject();
    jsonPayload.Put("model", OpenAiApi.Text(params.modelName));
    jsonPayload.Put("input", OpenAiApi.Text(text));
    jsonPayload.Put("voice", OpenAiApi.Text(params.voice));
    jsonPayload.Put("response_format", OpenAiApi.Text(params.responseFormat));
    jsonPayload.Put("speed", params.speed);
    payload := jsonPayload.fields;
  }

  /** `textToSpeech`: the request always goes out; a 200 answer is copied
      into the output file, and a `null` output path fails to open it. The
      answer names the output path whatever happened, and is empty only
      for a `null` path. */
  method TextToSpeech(fs: FileSystem, client: Client, apiKey: string, textToConvert: Option<string>,
                      pathToOutputFile: Option<string>, params: OpenAiApi.TtsParams)
    returns (fs': FileSystem, request: HttpRequest, reply: map<string, Json>)
    ensures request.verb == POST && request.uri == ApiUrl + "speech"
    ensures request.headers == [Authorization(apiKey), ("Content-Type", "application/json")]
    ensures request.entity.JsonEntity? && OpenAiApi.SpeechFields(request.entity.fields, OpenAiApi.Text(textToConvert), params)
    ensures var exchange := client(request);
      fs' == if exchange.Answered? && exchange.response.status == 200 && pathToOutputFile.Some?
             then fs[pathToOutputFile.value := exchange.response.content] else fs
    ensures reply == if pathToOutputFile.Some? then map[OutputDirectoryKey := JString(pathToOutputFile.value)] else map[]
  {
    var payload := SpeechPayload(textToConvert, params);
    request := HttpRequest(POST, ApiUrl + "speech", [Authorization(apiKey), ("Content-Type", "application/json")],
                           JsonEntity(payload));
    fs' := fs;
    var exchange := client(request);
    if exchange.Answered? && exchange.response.status == 200 && pathToOutputFile.Some? {
      var fos := new OutputStream();
      Copy(exchange.response.content, fos);
      assert fos.written == exchange.response.content;
      fs' := fs[pathToOutputFile.value := fos.written];
    }
    var responseJson := new JsonObject();
    responseJson.Put(OutputDirectoryKey, OpenAiApi.Text(pathToOutputFile));
    reply := responseJson.fields;
  }

  // ------------------------------------------------- local speech to text

  const NotActivatedMessage := "Local Whisper mode not activated. Use the OpenAI API or enable the local option."
  const NoContextMessage := "Failed to initialize Whisper context"
  const ProcessingErrorPrefix := "Error during " + "Speech-to-Text processing with Whisper: "

  /** `LocalSTTParamsModelDetails.AudioFormat`: only WAV is told apart. */
  datatype AudioFormat = WAV | OtherFormat

  /** The options of `LocalSTTParamsModelDetails`; a `null` audio format
      is `None`. */
  datatype LocalParams = LocalParams(
    modelPath: string,
    nThreads: int,
    language: Option<string>,
    translate: bool,
    printProgress: bool,
    audioFormat: Option<AudioFormat>)

  /** The engine parameters set from the local options. */
  function EngineParams(params: LocalParams): (p: WhisperParams)
    ensures p.nThreads == params.nThreads && p.language == params.language
    ensures p.translate == params.translate && p.printProgress == params.printProgress
    ensures p.temperature.None? && p.initialPrompt.None?
  {
    WhisperParams(params.nThreads, params.translate, params.printProgress, params.language, None, None)
  }

  /** `catch (Exception e)`: everything but an `Error`. */
  predicate IsException(e: Throwable) {
    !IsJavaError(e.kind)
  }

  function ErrorReply(message: string): map<string, Json> {
    map["error" := JString(message)]
  }

  /** The reply of a local run, or the `Error` that escapes it. */
  type LocalOutcome = (FileSystem, Result<map<string, Json>>)

  /** What `speechToTextLocal` can give back: an object with exactly one
      entry, "error" or "transcription", or an `Error` no `catch` names. */
  predicate Shaped(r: LocalOutcome) {
    (r.1.Ok? ==> r.1.value.Keys == {"error"} || r.1.value.Keys == {"transcription"}) &&
    (r.1.Err? ==> IsJavaError(r.1.error.kind))
  }

  /** An exception the `catch` clause turns into an "error" entry. */
  function Failure(fs: FileSystem, e: Throwable): (r: LocalOutcome)
    ensures Shaped(r) && r.0 == fs
    ensures r.1.Err? <==> !IsException(e)
  {
    if IsException(e) then (fs, Ok(ErrorReply(ProcessingErrorPrefix + e.message))) else (fs, Err(e))
  }

  /** The entry for a finished inference. */
  function InferenceReply(inference: Inference): map<string, Json> {
    if inference.resultCode != 0 then ErrorReply(ResultCodeMessage + IntToString(inference.resultCode))
    else map["transcription" := JString(Trim(Transcript(inference.segments)))]
  }

  /** What follows `readFile`. */
  function Transcribed(o: AudioFileReader.ReadOutcome, engine: Engine, params: LocalParams): (r: LocalOutcome)
    ensures Shaped(r) && r.0 == o.fs
  {
    match o.samples
    case Err(e) => Failure(o.fs, e)
    case Ok(samples) => (o.fs, Ok(InferenceReply(engine(EngineParams(params), samples))))
  }

  /** A non-WAV file: converted to `wavFilePath`, which is then read. */
  function Converting(fs: FileSystem, host: Host, engine: Engine, audioFilePath: string, wavFilePath: string,
                      params: LocalParams): (r: LocalOutcome)
    ensures Shaped(r)
  {
    var (fs1, converted) := Mp3ToWavConverter.Conversion(fs, host.codecs, audioFilePath, wavFilePath);
    if converted.Err? then Failure(fs1, converted.error)
    else Transcribed(AudioFileReader.ReadFileSpec(fs1, host.codecs, host.cwd, wavFilePath, host.stack), engine, params)
  }

  /** The run once a context is loaded. */
  function Processed(fs: FileSystem, host: Host, engine: Engine, audioFilePath: string, params: LocalParams): (r: LocalOutcome)
    ensures Shaped(r)
  {
    if params.audioFormat.None? then Failure(fs, Error(NullPointerException, ""))
    else if params.audioFormat == Some(WAV) then
      Transcribed(AudioFileReader.ReadFileSpec(fs, host.codecs, host.cwd, audioFilePath, host.stack), engine, params)
    else Converting(fs, host, engine, audioFilePath, ReplaceExtension(audioFilePath, ".wav"), params)
  }

  /** `speechToTextLocal`: an "error" or a "transcription" entry, or an
      `Error` that no `catch` clause names. */
  function SpeechToTextLocalSpec(fs: FileSystem, host: Host, native: NativeLibrary, useLocalWhisper: bool,
                                 audioFilePath: string, params: LocalParams): (r: LocalOutcome)
    ensures Shaped(r)
    ensures !useLocalWhisper ==> r == (fs, Ok(ErrorReply(ProcessingErrorPrefix + NotActivatedMessage)))
  {
    if !useLocalWhisper then Failure(fs, Error(RuntimeException, NotActivatedMessage))
    else if native.loadFailure.Some? then Failure(fs, native.loadFailure.value)
    else match native.init(params.modelPath)
      case Err(e) => Failure(fs, e)
      case Ok(None) => Failure(fs, Error(RuntimeException, NoContextMessage))
      case Ok(Some(engine)) => Processed(fs, host, engine, audioFilePath, params)
  }

  /** Whether `init` gave a context, so that there is one to close. */
  predicate ContextCreated(native: NativeLibrary, useLocalWhisper: bool, params: LocalParams) {
    useLocalWhisper && native.loadFailure.None? &&
    native.init(params.modelPath).Ok? && native.init(params.modelPath).value.Some?
  }

  /** Whether `ctx.close()` runs. It is the last statement of the `else`
      block rather than a `finally`, so only a run whose samples were read
      and passed to the engine reaches it. */
  predicate ClosesContext(fs: FileSystem, host: Host, native: NativeLibrary, useLocalWhisper: bool,
                          audioFilePath: string, params: LocalParams) {
    ContextCreated(native, useLocalWhisper, params) && params.audioFormat.Some? &&
    if params.audioFormat == Some(WAV) then
      AudioFileReader.ReadFileSpec(fs, host.codecs, host.cwd, audioFilePath, host.stack).samples.Ok?
    else
      var wavFilePath := ReplaceExtension(audioFilePath, ".wav");
      var (fs1, converted) := Mp3ToWavConverter.Conversion(fs, host.codecs, audioFilePath, wavFilePath);
      converted.Ok? && AudioFileReader.ReadFileSpec(fs1, host.codecs, host.cwd, wavFilePath, host.stack).samples.Ok?
  }

  /** A reply made by the `catch` clause, or an `Error` that passes it. */
  predicate FromCatch(r: LocalOutcome) {
    r.1.Err? ||
    ("error" in r.1.value && r.1.value["error"].JString? && StartsWith(r.1.value["error"].s, ProcessingErrorPrefix))
  }

  /** The reply to an exception, built as the `catch` clause builds it. */
  method CatchFailure(fs: FileSystem, e: Throwable) returns (fs': FileSystem, reply: Result<map<string, Json>>)
    ensures (fs', reply) == Failure(fs, e)
  {
    if !IsException(e) {
      return fs, Err(e);
    }
    var jsonResponse := new JsonObject();
    jsonResponse.Put("error", Some(JString(ProcessingErrorPrefix + e.message)));
    return fs, Ok(jsonResponse.fields);
  }

  /** `readFile`, the engine run and the reply it gives. */
  method ReadAndReply(fs: FileSystem, host: Host, path: string, engine: Engine, params: LocalParams)
    returns (fs': FileSystem, reply: Result<map<string, Json>>, ran: bool)
    ensures (fs', reply) == Transcribed(AudioFileReader.ReadFileSpec(fs, host.codecs, host.cwd, path, host.stack), engine, params)
    ensures ran == AudioFileReader.ReadFileSpec(fs, host.codecs, host.cwd, path, host.stack).samples.Ok?
  {
    var samples;
    fs', samples := AudioFileReader.ReadFile(fs, host.codecs, host.cwd, path, host.stack);
    if samples.Err? {
      fs', reply := CatchFailure(fs', samples.error);
      return fs', reply, false;
    }
    ran := true;
    var whisperParams := WhisperParams(params.nThreads, params.translate, params.printProgress, params.language, None, None);
    var inference := engine(whisperParams, samples.value[..]);
    var jsonResponse := new JsonObject();
    if inference.resultCode != 0 {
      jsonResponse.Put("error", Some(JString(ResultCodeMessage + IntToString(inference.resultCode))));
    } else {
      var transcription := JoinSegments(inference.segments);
      jsonResponse.Put("transcription", Some(JString(Trim(transcription))));
    }
    reply := Ok(jsonResponse.fields);
  }

  /** `speechToTextLocal(audioFilePath, configuration, localParams)`;
      `closed` tells whether the context was closed. */
  method SpeechToTextLocal(fs: FileSystem, host: Host, native: NativeLibrary, useLocalWhisper: bool,
                           audioFilePath: string, params: LocalParams)
    returns (fs': FileSystem, reply: Result<map<string, Json>>, closed: bool)
    ensures (fs', reply) == SpeechToTextLocalSpec(fs, host, native, useLocalWhisper, audioFilePath, params)
    ensures closed == ClosesContext(fs, host, native, useLocalWhisper, audioFilePath, params)
  {
    closed := false;
    if !useLocalWhisper {
      fs', reply := CatchFailure(fs, Error(RuntimeException, NotActivatedMessage));
      return;
    }
    if native.loadFailure.Some? {
      fs', reply := CatchFailure(fs, native.loadFailure.value);
      return;
    }
    var ctx := native.init(params.modelPath);
    if ctx.Err? {
      fs', reply := CatchFailure(fs, ctx.error);
      return;
    }
    if ctx.value.None? {
      fs', reply := CatchFailure(fs, Error(RuntimeException, NoContextMessage));
      return;
    }
    var engine := ctx.value.value;
    if params.audioFormat.None? {
      fs', reply := CatchFailure(fs, Error(NullPointerException, ""));
      return;
    }
    var processedFilePath := audioFilePath;
    fs' := fs;
    if params.audioFormat != Some(WAV) {
      var wavFilePath := ReplaceExtension(audioFilePath, ".wav");
      var converted;
      fs', converted := Mp3ToWavConverter.ConvertMp3ToWav(fs, host.codecs, audioFilePath, wavFilePath);
      if converted.Err? {
        fs', reply := CatchFailure(fs', converted.error);
        return;
      }
      processedFilePath := wavFilePath;
    }
    var ran;
    fs', reply, ran := ReadAndReply(fs', host, processedFilePath, engine, params);
    if ran {
      closed := true;
    }
  }

  // ------------------------------------------------ local speech lemmas

  /** A loaded context gives a transcription only for samples read from the
      file, with a zero result code; the text is the trimmed transcript of
      the segments. A non-zero code gives an error naming the code. */
  lemma InferenceDecidesTheReply(o: AudioFileReader.ReadOutcome, engine: Engine, params: LocalParams)
    ensures var (_, reply) := Transcribed(o, engine, params);
      reply.Ok? && "transcription" in reply.value ==>
        o.samples.Ok? && engine(EngineParams(params), o.samples.value).resultCode == 0 &&
        reply.value["transcription"] == JString(Trim(Transcript(engine(EngineParams(params), o.samples.value).segments)))
    ensures var (_, reply) := Transcribed(o, engine, params);
      o.samples.Ok? && engine(EngineParams(params), o.samples.value).resultCode != 0 ==>
        reply == Ok(ErrorReply(ResultCodeMessage + IntToString(engine(EngineParams(params), o.samples.value).resultCode)))
  {
  }

  /** The transcription is the engine's transcript with its leading and
      trailing whitespace removed and nothing else, unlike the transcripts
      of the connections. */
  lemma TranscriptionIsTrimmed(inference: Inference)
    requires inference.resultCode == 0
    ensures var s := Transcript(inference.segments);
      TrimmedAt(s, InferenceReply(inference)["transcription"].s, |s| - |TrimStart(s)|)
  {
    TrimIsTrimmed(Transcript(inference.segments));
  }

  /** `ctx.close()` runs exactly on the runs that end in the engine's
      reply: there the reply never comes from the `catch` clause, and every
      run that created a context and did not close it ends in the `catch`
      clause (or an `Error` past it), leaving the native context open. */
  lemma ContextIsClosedOnlyOnTheNormalPath(fs: FileSystem, host: Host, native: NativeLibrary, useLocalWhisper: bool,
                                           audioFilePath: string, params: LocalParams)
    ensures var r := SpeechToTextLocalSpec(fs, host, native, useLocalWhisper, audioFilePath, params);
      ClosesContext(fs, host, native, useLocalWhisper, audioFilePath, params) ==>
        ContextCreated(native, useLocalWhisper, params) && !FromCatch(r)
    ensures var r := SpeechToTextLocalSpec(fs, host, native, useLocalWhisper, audioFilePath, params);
      ContextCreated(native, useLocalWhisper, params) && !ClosesContext(fs, host, native, useLocalWhisper, audioFilePath, params) ==>
        FromCatch(r)
  {
    if !ContextCreated(native, useLocalWhisper, params) {
      return;
    }
    var r := SpeechToTextLocalSpec(fs, host, native, useLocalWhisper, audioFilePath, params);
    var engine := native.init(params.modelPath).value.value;
    assert r == Processed(fs, host, engine, audioFilePath, params);
    if params.audioFormat.None? {
      FailureIsFromCatch(fs, Error(NullPointerException, ""));
    } else if params.audioFormat == Some(WAV) {
      var o := AudioFileReader.ReadFileSpec(fs, host.codecs, host.cwd, audioFilePath, host.stack);
      assert r == Transcribed(o, engine, params);
      TranscribedIsFromCatch(o, engine, params);
    } else {
      var wavFilePath := ReplaceExtension(audioFilePath, ".wav");
      var (fs1, converted) := Mp3ToWavConverter.Conversion(fs, host.codecs, audioFilePath, wavFilePath);
      assert r == Converting(fs, host, engine, audioFilePath, wavFilePath, params);
      if converted.Err? {
        FailureIsFromCatch(fs1, converted.error);
      } else {
        var o := AudioFileReader.ReadFileSpec(fs1, host.codecs, host.cwd, wavFilePath, host.stack);
        assert r == Transcribed(o, engine, params);
        TranscribedIsFromCatch(o, engine, params);
      }
    }
  }

  /** Every reply of the `catch` clause starts with its prefix. */
  lemma FailureIsFromCatch(fs: FileSystem, e: Throwable)
    ensures FromCatch(Failure(fs, e))
  {
    if IsException(e) {
      assert (ProcessingErrorPrefix + e.message)[..|ProcessingErrorPrefix|] == ProcessingErrorPrefix;
    }
  }

  /** After `readFile`, the reply comes from the `catch` clause exactly when
      the read failed. */
  lemma TranscribedIsFromCatch(o: AudioFileReader.ReadOutcome, engine: Engine, params: LocalParams)
    ensures FromCatch(Transcribed(o, engine, params)) <==> o.samples.Err?
  {
    if o.samples.Err? {
      FailureIsFromCatch(o.fs, o.samples.error);
    } else {
      var inference := engine(EngineParams(params), o.samples.value);
      if inference.resultCode != 0 {
        var message := ResultCodeMessage + IntToString(inference.resultCode);
        assert ResultCodeMessage[0] == 'T';
        assert message[0] == ResultCodeMessage[0];
        assert ProcessingErrorPrefix[0] == 'E';
      }
    }
  }

  /** Two error replies for non-zero codes are equal only for the same
      code. */
  lemma ErrorReplyNamesTheCode(a: Inference, b: Inference)
    requires a.resultCode != 0 && b.resultCode != 0
    requires InferenceReply(a) == InferenceReply(b)
    ensures a.resultCode == b.resultCode
  {
    var p := ResultCodeMessage;
    var ma, mb := p + IntToString(a.resultCode), p + IntToString(b.resultCode);
    assert InferenceReply(a)["error"] == JString(ma);
    assert ma == mb;
    assert ma[|p|..] == IntToString(a.resultCode);
    assert mb[|p|..] == IntToString(b.resultCode);
    IntToStringInjective(a.resultCode, b.resultCode);
  }

  /** A non-WAV file with an extension is converted to the same path with
      ".wav" in place of the extension, and that file is the one read. */
  lemma NonWavIsReadFromTheWavPath(fs: FileSystem, host: Host, engine: Engine, stem: string, extension: string,
                                   params: LocalParams)
    requires params.audioFormat == Some(OtherFormat)
    requires extension != [] && forall j :: 0 <= j < |extension| ==> WordChar(extension[j])
    ensures Processed(fs, host, engine, stem + "." + extension, params) ==
      Converting(fs, host, engine, stem + "." + extension, stem + ".wav", params)
  {
    ReplacesLastExtension(stem, extension, ".wav");
  }
}
