/**
  The provider of local Whisper JNI connections: on start it loads the
  native library, resolves the configured model (a file, or a class-path
  resource it copies to a temporary file) and initialises a context; on
  stop it closes the context and deletes the temporary copy.
 */
module WhisperJNILocalConnectionProvider {
  import opened Common
  import opened Strings
  import opened Media
  import opened LocalInference

  const ClasspathPrefix := "classpath://"
  const TempFilePrefix := "whisper-model-"
  const NotInClasspathPrefix := "Model file not found in classpath: "
  const NotFoundPrefix := "Model file not found: "

  /** Where the provider runs: the context class loader's resources by
      name, the temporary-file directory, the random part
      `Files.createTempFile` puts into the name it chooses, and the
      `IOException`s the file system raises: the message of a failing
      `createTempFile`, and a `Files.copy` that fails part-way. */
  datatype Environment = Environment(resources: map<string, seq<Byte>>, tempDir: string, tempId: TempId,
                                     createFailure: Option<string>, copyFailure: Option<CopyFailure>)

  /** A copy that stops with an `IOException` carrying `message` after
      `written` bytes have reached the file. */
  datatype CopyFailure = CopyFailure(written: nat, message: string)

  /** The random part of a temporary name: an unsigned decimal number. */
  type TempId = s: string | forall i :: 0 <= i < |s| ==> '0' <= s[i] <= '9' witness "0"

  /** What resolving a model path leaves behind: the file system, the
      temporary copy when one was made, and the path or the `IOException`. */
  datatype Resolution = Resolution(fs: FileSystem, extracted: Option<string>, path: Result<string>)

  /** The name `Files.createTempFile("whisper-model-", "-" + fileName)`
      chooses in the temporary directory. */
  function TempModelFile(env: Environment, fileName: string): string {
    Child(Some(env.tempDir), TempFilePrefix + env.tempId + "-" + fileName)
  }

  /** What `Files.copy` leaves in the file: the whole content, or the part
      written before it failed. */
  function Copied(env: Environment, content: seq<Byte>): (c: seq<Byte>)
    ensures c <= content
    ensures env.copyFailure.None? ==> c == content
    ensures env.copyFailure.Some? ==> |c| == (if env.copyFailure.value.written < |content| then env.copyFailure.value.written else |content|)
  {
    match env.copyFailure
    case None => content
    case Some(f) => content[..if f.written < |content| then f.written else |content|]
  }

  /** The `IOException` of a failing copy, if it fails. */
  function CopyException(env: Environment): (e: Option<Throwable>)
    ensures e.Some? <==> env.copyFailure.Some?
    ensures e.Some? ==> e.value.kind == IOException && e.value.message == env.copyFailure.value.message
  {
    match env.copyFailure
    case None => None
    case Some(f) => Some(Error(IOException, f.message))
  }

  /** `resolveModelPath(modelPath)`. A "classpath://" path names a resource;
      a missing one is an `IOException`, and a present one is copied into a
      new temporary file whose name ends in "-" and the resource's last path
      segment, and that file is the model. Creating the file can fail, and
      then nothing is written; the copy can fail, and then the file holds
      what was written and is still the recorded copy. Any other path is
      the model itself when a file is there, and an `IOException`
      otherwise. */
  function Resolve(fs: FileSystem, env: Environment, modelPath: string): Resolution {
    if StartsWith(modelPath, ClasspathPrefix) then
      var resource := modelPath[|ClasspathPrefix|..];
      if resource !in env.resources then
        Resolution(fs, None, Err(Error(IOException, NotInClasspathPrefix + resource)))
      else
        var temp := TempModelFile(env, AfterLast(resource, '/'));
        match env.createFailure
        case Some(message) => Resolution(fs, None, Err(Error(IOException, message)))
        case None =>
          var copied := Copied(env, env.resources[resource]);
          match CopyException(env)
          case Some(e) => Resolution(fs[temp := copied], Some(temp), Err(e))
          case None => Resolution(fs[temp := copied], Some(temp), Ok(temp))
    else if modelPath in fs then Resolution(fs, None, Ok(modelPath))
    else Resolution(fs, None, Err(Error(IOException, NotFoundPrefix + modelPath)))
  }

  /** The copy of a resource ends in "-" and the resource's file name, and
      its own file name begins with the provider's prefix. */
  lemma CopyNameShape(env: Environment, fileName: string)
    requires forall i :: 0 <= i < |fileName| ==> fileName[i] != '/'
    ensures var temp := TempModelFile(env, fileName);
      EndsWith(temp, "-" + fileName) && StartsWith(AfterLast(temp, '/'), TempFilePrefix)
  {
    var head := TempFilePrefix + env.tempId;
    var name := head + "-" + fileName;
    TempNameHasNoSeparator(env.tempId, fileName);
    TempNameIsTheLastSegment(env.tempDir, name);
    Assoc(head, "-", fileName);
    assert EndsWith(name, "-" + fileName);
    EndsWithTransitive(TempModelFile(env, fileName), name, "-" + fileName);
    Assoc(TempFilePrefix, env.tempId, "-" + fileName);
    StartsWithPrefix(name, TempFilePrefix, env.tempId + ("-" + fileName));
  }

  /** The name chosen for a file name without '/' has none either. */
  lemma TempNameHasNoSeparator(id: TempId, fileName: string)
    requires forall i :: 0 <= i < |fileName| ==> fileName[i] != '/'
    ensures var name := TempFilePrefix + id + "-" + fileName;
      forall i :: 0 <= i < |name| ==> name[i] != '/'
  {
    var head := TempFilePrefix + id + "-";
    assert forall i :: 0 <= i < |head| ==> head[i] != '/';
    assert forall i :: |head| <= i < |head + fileName| ==> (head + fileName)[i] == fileName[i - |head|];
  }

  /** The temporary file's name is the last segment of its path. */
  lemma TempNameIsTheLastSegment(dir: string, name: string)
    requires forall i :: 0 <= i < |name| ==> name[i] != '/'
    ensures AfterLast(Child(Some(dir), name), '/') == name
  {
    if dir != [] && dir[|dir| - 1] == '/' {
      AfterLastAfterSeparator(dir, name, '/');
    } else {
      AfterLastAfterSeparator(dir + "/", name, '/');
      assert dir + "/" + name == (dir + "/") + name;
    }
  }

  /** `catch (IOException e) { throw new StartException(e, this); }`: only
      an `IOException` is wrapped; anything else leaves `start` as it is. */
  function StartFailure(e: Throwable): (f: Throwable)
    ensures e.kind == IOException ==> f.kind == StartException && f.cause == Some(e)
    ensures e.kind != IOException ==> f == e
  {
    if e.kind == IOException then Wrapping(StartException, e.message, e) else e
  }

  /** `Files.createTempFile("whisper-model-", "-" + fileName)`, which makes
      an empty file or fails, then `Files.copy` of the resource over it,
      which can fail part-way. `temp` is the file created, if any. */
  method ExtractToTempFile(fs: FileSystem, env: Environment, fileName: string, content: seq<Byte>)
    returns (fs': FileSystem, temp: Option<string>, failure: Option<Throwable>)
    ensures env.createFailure.Some? ==>
      fs' == fs && temp.None? && failure == Some(Error(IOException, env.createFailure.value))
    ensures env.createFailure.None? ==>
      temp == Some(TempModelFile(env, fileName)) && fs' == fs[temp.value := Copied(env, content)] &&
      failure == CopyException(env)
    ensures failure.None? ==> temp.Some? && fs'[temp.value] == content
    ensures temp.Some? && temp.value !in fs ==> fs' - {temp.value} == fs
  {
    if env.createFailure.Some? {
      return fs, None, Some(Error(IOException, env.createFailure.value));
    }
    var path := TempModelFile(env, fileName);
    fs' := fs[path := []];
    temp := Some(path);
    failure := None;
    var copied := content;
    if env.copyFailure.Some? {
      var written := env.copyFailure.value.written;
      copied := content[..if written < |content| then written else |content|];
      failure := Some(Error(IOException, env.copyFailure.value.message));
    }
    fs' := fs'[path := copied];
    assert fs' == fs[path := Copied(env, content)];
    if path !in fs {
      ForgetNewKey(fs, path, copied);
    }
  }

  class WhisperJNILocalConnectionProvider {
    const threads: int
    const translate: bool
    const printProgress: bool
    /** The model group's file path; `None` is a path left `null`. */
    const modelFilePath: Option<string>

    /** Whether `whisper` holds a `WhisperJNI` instance. */
    var loaded: bool
    /** `whisperContext`: `None` while it is `null`. */
    var context: Option<Engine>
    /** Whether `stop` has closed a context. */
    var closed: bool
    /** `tempModelFile`: the extracted copy of a class-path model. */
    var tempModelFile: Option<string>

    constructor(threads: int, translate: bool, printProgress: bool, modelFilePath: Option<string>)
      ensures this.threads == threads && this.translate == translate && this.printProgress == printProgress
      ensures this.modelFilePath == modelFilePath
      ensures !loaded && context.None? && !closed && tempModelFile.None?
    {
      this.threads := threads;
      this.translate := translate;
      this.printProgress := printProgress;
      this.modelFilePath := modelFilePath;
      loaded := false;
      context := None;
      closed := false;
      tempModelFile := None;
    }

    /** `resolveModelPath`: `Resolve`, and the temporary copy, when it makes
        one, recorded in `tempModelFile`. */
    method ResolveModelPath(fs: FileSystem, env: Environment, modelPath: string)
      returns (fs': FileSystem, path: Result<string>)
      modifies this
      ensures var r := Resolve(fs, env, modelPath);
        fs' == r.fs && path == r.path &&
        tempModelFile == (if r.extracted.Some? then r.extracted else old(tempModelFile))
      ensures loaded == old(loaded) && context == old(context) && closed == old(closed)
    {
      fs' := fs;
      if StartsWith(modelPath, ClasspathPrefix) {
        var resourcePath := modelPath[|ClasspathPrefix|..];
        if resourcePath !in env.resources {
          return fs', Err(Error(IOException, NotInClasspathPrefix + resourcePath));
        }
        var temp, failure;
        fs', temp, failure := ExtractToTempFile(fs', env, AfterLast(resourcePath, '/'), env.resources[resourcePath]);
        if temp.Some? {
          tempModelFile := temp;
        }
        if failure.Some? {
          return fs', Err(failure.value);
        }
        return fs', Ok(temp.value);
      }
      if modelPath !in fs {
        return fs', Err(Error(IOException, NotFoundPrefix + modelPath));
      }
      path := Ok(modelPath);
    }

    /** `start()`: load the library, resolve the model and initialise a
        context on it; an `IOException` on the way becomes a
        `StartException`. */
    method Start(fs: FileSystem, env: Environment, native: NativeLibrary)
      returns (fs': FileSystem, r: Result<()>)
      modifies this
      ensures closed == old(closed)
      ensures native.loadFailure.Some? ==>
        r == Err(StartFailure(native.loadFailure.value)) && fs' == fs &&
        loaded == old(loaded) && context == old(context) && tempModelFile == old(tempModelFile)
      ensures native.loadFailure.None? && modelFilePath.None? ==>
        loaded && r == Err(Error(NullPointerException, "")) && fs' == fs &&
        context == old(context) && tempModelFile == old(tempModelFile)
      ensures native.loadFailure.None? && modelFilePath.Some? ==>
        var res := Resolve(fs, env, modelFilePath.value);
        loaded && fs' == res.fs &&
        tempModelFile == (if res.extracted.Some? then res.extracted else old(tempModelFile)) &&
        (res.path.Err? ==> r == Err(StartFailure(res.path.error)) && context == old(context)) &&
        (res.path.Ok? && native.init(res.path.value).Err? ==>
          r == Err(StartFailure(native.init(res.path.value).error)) && context == old(context)) &&
        (res.path.Ok? && native.init(res.path.value).Ok? ==>
          r == Ok(()) && context == native.init(res.path.value).value)
    {
      fs' := fs;
      if native.loadFailure.Some? {
        return fs', Err(StartFailure(native.loadFailure.value));
      }
      loaded := true;
      if modelFilePath.None? {
        return fs', Err(Error(NullPointerException, ""));
      }
      ghost var res := Resolve(fs, env, modelFilePath.value);
      var modelPath;
      fs', modelPath := ResolveModelPath(fs', env, modelFilePath.value);
      assert fs' == res.fs && modelPath == res.path;
      if modelPath.Err? {
        return fs', Err(StartFailure(modelPath.error));
      }
      var initialised := native.init(modelPath.value);
      if initialised.Err? {
        return fs', Err(StartFailure(initialised.error));
      }
      context := initialised.value;
      r := Ok(());
    }

    /** `stop()`: close the context if there is one, and delete the
        temporary model if it was made and is still there; a failing delete
        (`deleteFails`) is only logged. */
    method Stop(fs: FileSystem, deleteFails: bool) returns (fs': FileSystem)
      modifies this
      ensures closed == (old(closed) || old(context).Some?)
      ensures loaded == old(loaded) && context == old(context) && tempModelFile == old(tempModelFile)
      ensures fs' == if tempModelFile.Some? && tempModelFile.value in fs && !deleteFails
        then fs - {tempModelFile.value} else fs
    {
      if context.Some? {
        closed := true;
      }
      fs' := fs;
      if tempModelFile.Some? && tempModelFile.value in fs {
        if !deleteFails {
          fs' := fs' - {tempModelFile.value};
        }
      }
    }
  }

  // -------------------------------------------------------------- lemmas

  /** A resolved model is a file of the resulting file system. A temporary
      copy is a file too, even when the copy failed, and holds the start of
      the resource's bytes; a resolved one holds all of them. */
  lemma ResolvedModelExists(fs: FileSystem, env: Environment, modelPath: string)
    ensures var r := Resolve(fs, env, modelPath);
      r.path.Ok? ==> r.path.value in r.fs
    ensures var r := Resolve(fs, env, modelPath);
      r.extracted.Some? ==>
        StartsWith(modelPath, ClasspathPrefix) && r.extracted.value in r.fs &&
        r.fs[r.extracted.value] <= env.resources[modelPath[|ClasspathPrefix|..]]
    ensures var r := Resolve(fs, env, modelPath);
      r.extracted.Some? && r.path.Ok? ==>
        r.fs[r.extracted.value] == env.resources[modelPath[|ClasspathPrefix|..]]
  {
  }

  /** Only a class-path model whose temporary file could be created makes
      a temporary copy, and the copy is the model that was resolved unless
      the copy failed. */
  lemma OnlyClasspathModelsAreExtracted(fs: FileSystem, env: Environment, modelPath: string)
    ensures Resolve(fs, env, modelPath).extracted.Some? <==>
      StartsWith(modelPath, ClasspathPrefix) && modelPath[|ClasspathPrefix|..] in env.resources &&
      env.createFailure.None?
    ensures var r := Resolve(fs, env, modelPath);
      r.extracted.Some? ==> (r.path.Ok? <==> env.copyFailure.None?)
    ensures var r := Resolve(fs, env, modelPath);
      r.extracted.Some? && r.path.Ok? ==> r.path == Ok(r.extracted.value)
  {
  }

  /** Resolving fails exactly for a missing resource, a temporary file that
      cannot be created, a copy that fails, or a missing file, always with
      an `IOException`. Only a failed copy writes anything: the temporary
      file, which stays recorded as the copy. */
  lemma ResolveFailures(fs: FileSystem, env: Environment, modelPath: string)
    ensures var r := Resolve(fs, env, modelPath);
      r.path.Err? <==>
        if StartsWith(modelPath, ClasspathPrefix) then
          modelPath[|ClasspathPrefix|..] !in env.resources || env.createFailure.Some? || env.copyFailure.Some?
        else modelPath !in fs
    ensures var r := Resolve(fs, env, modelPath);
      r.path.Err? ==> r.path.error.kind == IOException && (r.extracted.None? ==> r.fs == fs)
    ensures var r := Resolve(fs, env, modelPath);
      r.path.Err? && StartsWith(modelPath, ClasspathPrefix) && modelPath[|ClasspathPrefix|..] !in env.resources ==>
        r.extracted.None? && r.path.error.message == NotInClasspathPrefix + modelPath[|ClasspathPrefix|..]
    ensures var r := Resolve(fs, env, modelPath);
      StartsWith(modelPath, ClasspathPrefix) && modelPath[|ClasspathPrefix|..] in env.resources &&
      env.createFailure.Some? ==>
        r.extracted.None? && r.path.error.message == env.createFailure.value
    ensures var r := Resolve(fs, env, modelPath);
      StartsWith(modelPath, ClasspathPrefix) && modelPath[|ClasspathPrefix|..] in env.resources &&
      env.createFailure.None? && env.copyFailure.Some? ==>
        r.extracted.Some? && r.path.Err? && r.path.error.message == env.copyFailure.value.message
    ensures var r := Resolve(fs, env, modelPath);
      r.path.Err? && !StartsWith(modelPath, ClasspathPrefix) ==>
        r.extracted.None? && r.path.error.message == NotFoundPrefix + modelPath
  {
  }

  /** A file system path is its own model, unchanged. */
  lemma PlainPathsAreKept(fs: FileSystem, env: Environment, modelPath: string)
    requires !StartsWith(modelPath, ClasspathPrefix) && modelPath in fs
    ensures Resolve(fs, env, modelPath) == Resolution(fs, None, Ok(modelPath))
  {
  }

  /** The copy of a class-path model is named after the resource: it ends in
      "-" and the resource's last path segment, and its own file name
      begins with "whisper-model-". */
  lemma CopyIsNamedAfterTheResource(fs: FileSystem, env: Environment, modelPath: string)
    requires Resolve(fs, env, modelPath).extracted.Some?
    ensures var copy := Resolve(fs, env, modelPath).extracted.value;
      var resource := modelPath[|ClasspathPrefix|..];
      EndsWith(copy, "-" + AfterLast(resource, '/')) && StartsWith(AfterLast(copy, '/'), TempFilePrefix)
  {
    var fileName := AfterLast(modelPath[|ClasspathPrefix|..], '/');
    assert Resolve(fs, env, modelPath).extracted.value == TempModelFile(env, fileName);
    CopyNameShape(env, fileName);
  }

  /** Resolving changes the file system by the temporary copy alone: a file
      system path leaves it as it was, and deleting a copy whose name was
      new gives the file system back. */
  lemma ResolveChangesOnlyTheCopy(fs: FileSystem, env: Environment, modelPath: string)
    ensures var r := Resolve(fs, env, modelPath);
      r.extracted.None? ==> r.fs == fs
    ensures var r := Resolve(fs, env, modelPath);
      r.extracted.Some? && r.extracted.value !in fs ==> r.fs - {r.extracted.value} == fs
  {
    var r := Resolve(fs, env, modelPath);
    if r.extracted.Some? && r.extracted.value !in fs {
      ForgetNewKey(fs, r.extracted.value, r.fs[r.extracted.value]);
    }
  }

  /** Removing a key that was new undoes adding it. */
  lemma ForgetNewKey(fs: FileSystem, key: string, value: seq<Byte>)
    requires key !in fs
    ensures fs[key := value] - {key} == fs
  {
    assert forall k :: k in fs[key := value] - {key} <==> k in fs;
  }

  /** The copy's name keeps the resource's file name after the random part,
      so two resources with different file names get different copies. */
  lemma CopiesKeepTheResourceName(env: Environment, a: string, b: string)
    requires TempModelFile(env, a) == TempModelFile(env, b)
    ensures a == b
  {
    var prefix := TempFilePrefix + env.tempId + "-";
    var dir := env.tempDir;
    var d := if dir != [] && dir[|dir| - 1] == '/' then dir else dir + "/";
    assert TempModelFile(env, a) == d + (prefix + a);
    assert TempModelFile(env, b) == d + (prefix + b);
    assert a == (d + (prefix + a))[|d| + |prefix|..];
    assert b == (d + (prefix + b))[|d| + |prefix|..];
  }
}
