/**
  The parameter group of the remote Whisper JNI provider: the URL a model
  is downloaded from and the directory it is stored in. The model's file
  name is the last segment of the URL's path, and the model file is that
  name inside the download directory.
 */
module WhisperJNIRemoteModelParameters {
  import opened Common
  import opened Strings

  /** `new java.net.URL(spec)`: the URL's path (`getPath()`), or the
      message of the `MalformedURLException` the constructor throws. */
  datatype ParsedUrl = Parsed(path: string) | Malformed(message: string)

  /** The URL parser of the class library, as a function of the text. */
  type UrlParser = string -> ParsedUrl

  const InvalidUrlPrefix := "Invalid URL: "
  const NoFileNamePrefix := "No filename found in URL: "

  /** What `new URL(null)` throws: a `MalformedURLException` around the
      `NullPointerException` of reading the missing text. */
  function NullUrl(): Throwable {
    Wrapping(MalformedURLException, "", Error(NullPointerException, ""))
  }

  /** The directory with a '/' appended unless it already ends in one. */
  function Normalized(directory: string): (d: string)
    ensures StartsWith(d, directory) && EndsWith(d, "/")
    ensures EndsWith(directory, "/") ==> d == directory
    ensures !EndsWith(directory, "/") ==> d == directory + "/"
  {
    if EndsWith(directory, "/") then directory else directory + "/"
  }

  /** `r` is the file name of a URL with the given path and text: the
      non-empty last segment of the path, or an `IllegalArgumentException`
      naming the URL when the path ends in '/' or is empty. */
  predicate FileNameOf(path: string, url: string, r: Result<string>) {
    (r.Ok? <==> path != [] && path[|path| - 1] != '/') &&
    (r.Err? ==> r == Err(Error(IllegalArgumentException, NoFileNamePrefix + url))) &&
    (r.Ok? ==>
      r.value != [] && EndsWith(path, r.value) &&
      (forall i :: 0 <= i < |r.value| ==> r.value[i] != '/') &&
      (|r.value| < |path| ==> path[|path| - |r.value| - 1] == '/'))
  }

  /** Nothing follows the last `c` exactly when `s` is empty or ends in one. */
  lemma AfterLastIsEmpty(s: string, c: char)
    ensures AfterLast(s, c) == [] <==> s == [] || s[|s| - 1] == c
  {
    if s != [] && s[|s| - 1] != c {
      assert LastIndexOf(s, c) < |s| - 1;
    }
  }

  /** The text after the path's last '/', when there is any. */
  function LastSegment(path: string, url: string): (r: Result<string>)
    ensures FileNameOf(path, url, r)
  {
    var fileName := AfterLast(path, '/');
    AfterLastIsEmpty(path, '/');
    if fileName == [] then Err(Error(IllegalArgumentException, NoFileNamePrefix + url))
    else Ok(fileName)
  }

  class WhisperJNIRemoteModelParameters {
    /** The repository URL; `None` is a parameter left `null`. */
    var modelUrl: Option<string>
    /** The download directory; `None` is a parameter left `null`. */
    var downloadPath: Option<string>

    constructor()
      ensures modelUrl.None? && downloadPath.None?
    {
      modelUrl := None;
      downloadPath := None;
    }

    /** `setModelURL`. */
    method SetModelUrl(url: Option<string>)
      modifies this
      ensures modelUrl == url && downloadPath == old(downloadPath)
    {
      modelUrl := url;
    }

    /** `setDownloadPath`. */
    method SetDownloadPath(path: Option<string>)
      modifies this
      ensures downloadPath == path && modelUrl == old(modelUrl)
    {
      downloadPath := path;
    }

    /** The URL as string concatenation prints it. */
    function UrlText(): string
      reads this
    {
      if modelUrl.Some? then modelUrl.value else "null"
    }

    /** The URL's parse, `null` included. */
    function Parse(parse: UrlParser): (u: Result<string>)
      reads this
      ensures modelUrl.None? ==> u == Err(NullUrl())
      ensures modelUrl.Some? && parse(modelUrl.value).Parsed? ==> u == Ok(parse(modelUrl.value).path)
      ensures modelUrl.Some? && parse(modelUrl.value).Malformed? ==>
        u == Err(Error(MalformedURLException, parse(modelUrl.value).message))
    {
      if modelUrl.None? then Err(NullUrl())
      else match parse(modelUrl.value)
        case Parsed(path) => Ok(path)
        case Malformed(message) => Err(Error(MalformedURLException, message))
    }

    /** `getModelFileName()`: the non-empty last segment of the URL's path;
        an `IllegalArgumentException` naming the URL when that segment is
        empty, and one wrapping the `MalformedURLException` when the text is
        not a URL. */
    function ModelFileName(parse: UrlParser): (r: Result<string>)
      reads this
      ensures Parse(parse).Err? ==>
        r == Err(Wrapping(IllegalArgumentException, InvalidUrlPrefix + UrlText(), Parse(parse).error))
      ensures Parse(parse).Ok? ==> FileNameOf(Parse(parse).value, UrlText(), r)
    {
      var u := Parse(parse);
      var url := UrlText();
      if u.Err? then Err(Wrapping(IllegalArgumentException, InvalidUrlPrefix + url, u.error))
      else LastSegment(u.value, url)
    }

    /** `getModelFilePath()`: the file name inside the download directory,
        with exactly the one '/' the directory lacks put between them. The
        directory is looked at first, so a `null` one fails with a
        `NullPointerException` whatever the URL. */
    function ModelFilePath(parse: UrlParser): (r: Result<string>)
      reads this
      ensures downloadPath.None? ==> r == Err(Error(NullPointerException, ""))
      ensures downloadPath.Some? && ModelFileName(parse).Err? ==> r == Err(ModelFileName(parse).error)
      ensures downloadPath.Some? && ModelFileName(parse).Ok? ==>
        r.Ok? && r.value == Normalized(downloadPath.value) + ModelFileName(parse).value &&
        AfterLast(r.value, '/') == ModelFileName(parse).value
    {
      match downloadPath
      case None => Err(Error(NullPointerException, ""))
      case Some(directory) =>
        var normalized := if EndsWith(directory, "/") then directory else directory + "/";
        match ModelFileName(parse)
        case Err(e) => Err(e)
        case Ok(name) =>
          AfterLastAfterSeparator(normalized, name, '/');
          Ok(normalized + name)
    }
  }

  /** The download path splits back into the normalised directory and the
      file name: whatever the directory, the file name is the part after the
      path's last '/' and the rest is the directory with one trailing '/'. */
  lemma FilePathSplits(p: WhisperJNIRemoteModelParameters, parse: UrlParser)
    requires p.ModelFilePath(parse).Ok?
    ensures p.downloadPath.Some? && p.ModelFileName(parse).Ok?
    ensures var path := p.ModelFilePath(parse).value;
      var name := AfterLast(path, '/');
      name == p.ModelFileName(parse).value && name != [] &&
      path[..|path| - |name|] == Normalized(p.downloadPath.value)
  {
    var path := p.ModelFilePath(parse).value;
    var name := p.ModelFileName(parse).value;
    assert path == Normalized(p.downloadPath.value) + name;
    assert path[..|path| - |name|] == Normalized(p.downloadPath.value);
  }

  /** Two URLs whose paths end in the same segment store their models at the
      same path: the host, the query and the directories of the URL do not
      matter. */
  lemma OnlyTheLastSegmentMatters(p: WhisperJNIRemoteModelParameters, q: WhisperJNIRemoteModelParameters,
                                  parse: UrlParser)
    requires p.downloadPath == q.downloadPath
    requires p.Parse(parse).Ok? && q.Parse(parse).Ok?
    requires AfterLast(p.Parse(parse).value, '/') == AfterLast(q.Parse(parse).value, '/')
    requires p.ModelFileName(parse).Ok?
    ensures p.ModelFilePath(parse) == q.ModelFilePath(parse)
  {
  }
}
