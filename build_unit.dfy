/**
 * One build unit (`build_image`): write the setup scripts and the Dockerfile
 * into the build directory, ask the daemon for a build, read the build stream
 * until it ends or carries an error.
 */
module BuildUnit {
  import opened Wrappers
  import opened Registry

  /** What reading a build stream leaves behind: the accumulated `buildlog` and
      the message of the errorDetail chunk that stopped the loop, if any. */
  datatype StreamResult = StreamResult(buildLog: string, error: Option<string>)

  /** The chunk loop of `build_image`. */
  function Consume(chunks: seq<Chunk>, ansi: string -> string): (res: StreamResult)
  {
    if |chunks| == 0 then StreamResult("", None)
    else match chunks[0]
      case Stream(text) =>
        var rest := Consume(chunks[1..], ansi);
        StreamResult(ansi(text) + rest.buildLog, rest.error)
      case ErrorDetail(message) => StreamResult("", Some(message))
      case Other => Consume(chunks[1..], ansi)
  }

  /** Reference definition: the cleaned text of every stream chunk, in order. */
  function StreamLog(chunks: seq<Chunk>, ansi: string -> string): string
  {
    if |chunks| == 0 then ""
    else (if chunks[0].Stream? then ansi(chunks[0].text) else "") + StreamLog(chunks[1..], ansi)
  }

  /** The position of the first errorDetail chunk, or the length when there is none. */
  function FirstErrorAt(chunks: seq<Chunk>): (n: nat)
    ensures n <= |chunks|
    ensures forall j | 0 <= j < n :: !chunks[j].ErrorDetail?
    ensures n < |chunks| ==> chunks[n].ErrorDetail?
  {
    if |chunks| == 0 then 0
    else if chunks[0].ErrorDetail? then 0
    else 1 + FirstErrorAt(chunks[1..])
  }

  /** The loop keeps the cleaned stream text in order, up to the first
      errorDetail chunk, and stops there with that chunk's message. */
  lemma {:induction false} ConsumeSpec(chunks: seq<Chunk>, ansi: string -> string)
    ensures Consume(chunks, ansi).buildLog == StreamLog(chunks[..FirstErrorAt(chunks)], ansi)
    ensures Consume(chunks, ansi).error ==
      if FirstErrorAt(chunks) < |chunks| then Some(chunks[FirstErrorAt(chunks)].message) else None
  {
    if |chunks| > 0 && !chunks[0].ErrorDetail? {
      ConsumeSpec(chunks[1..], ansi);
      var n := FirstErrorAt(chunks);
      assert chunks[..n][1..] == chunks[1..][..n - 1];
    }
  }

  /** The daemon produced the image: no errorDetail chunk and no exception. */
  predicate Succeeds(resp: Response)
  {
    resp.failure.None? && forall i | 0 <= i < |resp.chunks| :: !resp.chunks[i].ErrorDetail?
  }

  /** `setup_script_name in dockerfile`: substring containment. */
  predicate Occurs(needle: string, hay: string)
    decreases |hay|
  {
    if |needle| > |hay| then false
    else hay[..|needle|] == needle || (|hay| > 0 && Occurs(needle, hay[1..]))
  }

  function UnusedScriptWarning(name: string): string
  {
    "Setup script " + name + " may not be used in Dockerfile"
  }

  /** The warnings `build_image` logs: one per script whose name the
      Dockerfile does not mention, in order. */
  function UnusedScriptWarnings(scripts: seq<(string, string)>, dockerfile: string): (ws: seq<string>)
    ensures |ws| <= |scripts|
    ensures forall w | w in ws :: exists i | 0 <= i < |scripts| ::
      w == UnusedScriptWarning(scripts[i].0) && !Occurs(scripts[i].0, dockerfile)
    ensures forall i | 0 <= i < |scripts| && !Occurs(scripts[i].0, dockerfile) ::
      UnusedScriptWarning(scripts[i].0) in ws
  {
    if |scripts| == 0 then []
    else
      var last := scripts[|scripts| - 1];
      var ws := UnusedScriptWarnings(scripts[..|scripts| - 1], dockerfile);
      assert forall i | 0 <= i < |scripts| - 1 :: scripts[..|scripts| - 1][i] == scripts[i];
      ws + (if Occurs(last.0, dockerfile) then [] else [UnusedScriptWarning(last.0)])
  }

  /** The warnings of two consecutive runs of scripts follow one another, so
      they come in script order. */
  lemma {:induction false} UnusedScriptWarningsAppend(a: seq<(string, string)>, b: seq<(string, string)>, dockerfile: string)
    ensures UnusedScriptWarnings(a + b, dockerfile)
         == UnusedScriptWarnings(a, dockerfile) + UnusedScriptWarnings(b, dockerfile)
    decreases |b|
  {
    if |b| == 0 {
      assert a + b == a;
    } else {
      var b' := b[..|b| - 1];
      assert (a + b)[..|a + b| - 1] == a + b';
      assert (a + b)[|a + b| - 1] == b[|b| - 1];
      UnusedScriptWarningsAppend(a, b', dockerfile);
    }
  }

  /** One script gives one warning exactly when the Dockerfile does not
      mention its name. */
  lemma UnusedScriptWarningsSingle(script: (string, string), dockerfile: string)
    ensures UnusedScriptWarnings([script], dockerfile)
         == if Occurs(script.0, dockerfile) then [] else [UnusedScriptWarning(script.0)]
  {
    assert [script][..0] == [];
  }

  /** The positions among the first `n` scripts whose name the Dockerfile
      does not mention. */
  ghost function Unmentioned(scripts: seq<(string, string)>, dockerfile: string, n: nat): set<nat>
  {
    set i: nat | i < n && i < |scripts| && !Occurs(scripts[i].0, dockerfile)
  }

  lemma UnmentionedStep(scripts: seq<(string, string)>, dockerfile: string, n: nat)
    requires 0 < n <= |scripts|
    ensures Occurs(scripts[n - 1].0, dockerfile) ==>
      Unmentioned(scripts, dockerfile, n) == Unmentioned(scripts, dockerfile, n - 1)
    ensures !Occurs(scripts[n - 1].0, dockerfile) ==>
      Unmentioned(scripts, dockerfile, n) == Unmentioned(scripts, dockerfile, n - 1) + {n - 1}
  {
  }

  /** Among the first `n` scripts, there are as many warnings as scripts
      whose name the Dockerfile does not mention. */
  lemma {:induction false} UnusedScriptWarningsCount(scripts: seq<(string, string)>, dockerfile: string, n: nat)
    requires n <= |scripts|
    ensures |UnusedScriptWarnings(scripts[..n], dockerfile)| == |Unmentioned(scripts, dockerfile, n)|
  {
    if n == 0 {
      assert Unmentioned(scripts, dockerfile, n) == {};
    } else {
      UnusedScriptWarningsCount(scripts, dockerfile, n - 1);
      assert scripts[..n] == scripts[..n - 1] + [scripts[n - 1]];
      UnusedScriptWarningsAppend(scripts[..n - 1], [scripts[n - 1]], dockerfile);
      UnusedScriptWarningsSingle(scripts[n - 1], dockerfile);
      UnmentionedStep(scripts, dockerfile, n);
      assert n - 1 !in Unmentioned(scripts, dockerfile, n - 1);
    }
  }

  /** Writing the setup scripts into `dir`, in order. */
  function WriteScripts(w: World, dir: BuildDir, scripts: seq<(string, string)>): (w': World)
    decreases |scripts|
  {
    if |scripts| == 0 then w
    else WriteScripts(WriteFile(w, FilePath(dir, scripts[0].0), scripts[0].1), dir, scripts[1..])
  }

  /** The write operations for the setup scripts. */
  function ScriptWrites(dir: BuildDir, scripts: seq<(string, string)>): (ops: seq<Op>)
    ensures |ops| == |scripts|
    ensures forall i | 0 <= i < |ops| :: ops[i] == Write(FilePath(dir, scripts[i].0), scripts[i].1)
  {
    seq(|scripts|, i requires 0 <= i < |scripts| => Write(FilePath(dir, scripts[i].0), scripts[i].1))
  }

  lemma {:induction false} WriteScriptsEffect(w: World, dir: BuildDir, scripts: seq<(string, string)>)
    ensures WriteScripts(w, dir, scripts).images == w.images
    ensures WriteScripts(w, dir, scripts).trace == w.trace + ScriptWrites(dir, scripts)
    decreases |scripts|
  {
    if |scripts| > 0 {
      var op := Write(FilePath(dir, scripts[0].0), scripts[0].1);
      var w1 := WriteFile(w, FilePath(dir, scripts[0].0), scripts[0].1);
      var tail := ScriptWrites(dir, scripts[1..]);
      assert WriteScripts(w, dir, scripts) == WriteScripts(w1, dir, scripts[1..]);
      WriteScriptsEffect(w1, dir, scripts[1..]);
      ScriptWritesCons(dir, scripts);
      assert w1.trace == w.trace + [op];
      assert w.trace + [op] + tail == w.trace + ([op] + tail);
    }
  }

  /** A helper for WriteScriptsEffect: the first script's write comes first. */
  lemma ScriptWritesCons(dir: BuildDir, scripts: seq<(string, string)>)
    requires |scripts| > 0
    ensures ScriptWrites(dir, scripts) == [Write(FilePath(dir, scripts[0].0), scripts[0].1)] + ScriptWrites(dir, scripts[1..])
  {
    var tail := ScriptWrites(dir, scripts[1..]);
    assert forall i | 0 <= i < |tail| :: tail[i] == Write(FilePath(dir, scripts[i + 1].0), scripts[i + 1].1);
  }

  /** Every setup script has been written once WriteScripts is done. */
  lemma {:induction false} WriteScriptsFiles(w: World, dir: BuildDir, scripts: seq<(string, string)>)
    ensures forall i | 0 <= i < |scripts| ::
      FilePath(dir, scripts[i].0) in WriteScripts(w, dir, scripts).files
    decreases |scripts|
  {
    if |scripts| > 0 {
      var w1 := WriteFile(w, FilePath(dir, scripts[0].0), scripts[0].1);
      WriteScriptsFiles(w1, dir, scripts[1..]);
      WriteScriptsKeeps(w1, dir, scripts[1..], FilePath(dir, scripts[0].0));
      WriteScriptsShift(w1, dir, scripts);
    }
  }

  /** A helper for WriteScriptsFiles: what the tail writes covers every
      script but the first. */
  lemma WriteScriptsShift(w1: World, dir: BuildDir, scripts: seq<(string, string)>)
    requires |scripts| > 0
    requires forall i | 0 <= i < |scripts| - 1 :: FilePath(dir, scripts[1..][i].0) in WriteScripts(w1, dir, scripts[1..]).files
    ensures forall i | 1 <= i < |scripts| :: FilePath(dir, scripts[i].0) in WriteScripts(w1, dir, scripts[1..]).files
  {
    forall i | 1 <= i < |scripts|
      ensures FilePath(dir, scripts[i].0) in WriteScripts(w1, dir, scripts[1..]).files
    {
      assert scripts[1..][i - 1] == scripts[i];
    }
  }

  lemma {:induction false} WriteScriptsKeeps(w: World, dir: BuildDir, scripts: seq<(string, string)>, p: FilePath)
    requires p in w.files
    ensures p in WriteScripts(w, dir, scripts).files
    decreases |scripts|
  {
    if |scripts| > 0 {
      WriteScriptsKeeps(WriteFile(w, FilePath(dir, scripts[0].0), scripts[0].1), dir, scripts[1..], p);
    }
  }

  /** The daemon's side of a build request: the request is recorded, and the
      image is tagged when the build succeeds. */
  function Built(w: World, req: BuildRequest, resp: Response): (w': World)
    ensures w'.files == w.files && w'.trace == w.trace + [Build(req)]
    ensures w'.images == if Succeeds(resp) then w.images + {req.tag} else w.images
  {
    w.(images := if Succeeds(resp) then w.images + {req.tag} else w.images, trace := w.trace + [Build(req)])
  }

  /** `build_image(image_name, setup_scripts, dockerfile, platform, client, build_dir, nocache)`. */
  function BuildImageSpec(w: World, o: Oracle, imageName: string, scripts: seq<(string, string)>,
                          dockerfile: string, platform: string, dir: BuildDir, nocache: bool)
    : (res: (World, Result<(), Error>))
  {
    var w1 := WriteFile(WriteScripts(w, dir, scripts), FilePath(dir, DOCKERFILE), dockerfile);
    var req := BuildRequest(dir, imageName, platform, nocache);
    var resp := o.build(req);
    var w2 := Built(w1, req, resp);
    var s := Consume(resp.chunks, o.ansi);
    var logPath := FilePath(dir, BUILD_IMAGE_LOG);
    if s.error.Some? then (w2, Err(BuildImageError(imageName, s.error.value, logPath, Some(s.buildLog))))
    else if resp.failure.Some? then (w2, Err(BuildImageError(imageName, resp.failure.value, logPath, None)))
    else (w2, Ok(()))
  }

  /** What one build unit does to the registry: every setup script and then the
      Dockerfile are written before the single build request, the image is
      added to the images exactly when the build succeeded, and otherwise the
      images are unchanged and a BuildImageError for this image names the
      unit's log file. */
  lemma BuildImageEffect(w: World, o: Oracle, imageName: string, scripts: seq<(string, string)>,
                         dockerfile: string, platform: string, dir: BuildDir, nocache: bool)
    ensures var (w', r) := BuildImageSpec(w, o, imageName, scripts, dockerfile, platform, dir, nocache);
      && w'.trace == w.trace + ScriptWrites(dir, scripts)
                     + [Write(FilePath(dir, DOCKERFILE), dockerfile), Build(BuildRequest(dir, imageName, platform, nocache))]
      && (forall i | 0 <= i < |scripts| :: FilePath(dir, scripts[i].0) in w'.files)
      && w'.files[FilePath(dir, DOCKERFILE)] == dockerfile
      && (r.Ok? <==> Succeeds(o.build(BuildRequest(dir, imageName, platform, nocache))))
      && (r.Ok? ==> w'.images == w.images + {imageName})
      && (r.Err? ==> w'.images == w.images)
      && (r.Err? ==> r.error.BuildImageError? && r.error.imageName == imageName
                     && r.error.logPath == FilePath(dir, BUILD_IMAGE_LOG))
  {
    WriteScriptsEffect(w, dir, scripts);
    WriteScriptsFiles(w, dir, scripts);
    var resp := o.build(BuildRequest(dir, imageName, platform, nocache));
    ConsumeSpec(resp.chunks, o.ansi);
    var n := FirstErrorAt(resp.chunks);
    if n < |resp.chunks| {
      assert !Succeeds(resp);
    }
  }

  /** When the stream carries an errorDetail chunk, the error raised has that
      chunk's message and the cleaned log of the stream chunks before it. */
  lemma BuildImageErrorDetail(w: World, o: Oracle, imageName: string, scripts: seq<(string, string)>,
                              dockerfile: string, platform: string, dir: BuildDir, nocache: bool)
    requires var chunks := o.build(BuildRequest(dir, imageName, platform, nocache)).chunks;
      FirstErrorAt(chunks) < |chunks|
    ensures var chunks := o.build(BuildRequest(dir, imageName, platform, nocache)).chunks;
      var n := FirstErrorAt(chunks);
      BuildImageSpec(w, o, imageName, scripts, dockerfile, platform, dir, nocache).1
        == Err(BuildImageError(imageName, chunks[n].message, FilePath(dir, BUILD_IMAGE_LOG),
                               Some(StreamLog(chunks[..n], o.ansi))))
  {
    var chunks := o.build(BuildRequest(dir, imageName, platform, nocache)).chunks;
    ConsumeSpec(chunks, o.ansi);
  }

  /** One build unit issues one build request, for its own image, and removes nothing. */
  lemma BuildImageCounts(w: World, o: Oracle, imageName: string, scripts: seq<(string, string)>,
                         dockerfile: string, platform: string, dir: BuildDir, nocache: bool, key: string)
    ensures var w' := BuildImageSpec(w, o, imageName, scripts, dockerfile, platform, dir, nocache).0;
      && BuildsOf(w'.trace, key) == BuildsOf(w.trace, key) + (if key == imageName then 1 else 0)
      && AllBuilds(w'.trace) == AllBuilds(w.trace) + 1
      && RemovesOf(w'.trace, key) == RemovesOf(w.trace, key)
      && PullsOf(w'.trace, key) == PullsOf(w.trace, key)
  {
    BuildImageEffect(w, o, imageName, scripts, dockerfile, platform, dir, nocache);
    var writes := ScriptWrites(dir, scripts);
    var req := BuildRequest(dir, imageName, platform, nocache);
    WritesCount(writes, key);
    CountsAppend(w.trace, writes, key);
    CountsAppend(w.trace + writes, [Write(FilePath(dir, DOCKERFILE), dockerfile)], key);
    CountsSingle(Write(FilePath(dir, DOCKERFILE), dockerfile), key);
    CountsAppend(w.trace + writes + [Write(FilePath(dir, DOCKERFILE), dockerfile)], [Build(req)], key);
    CountsSingle(Build(req), key);
    assert w.trace + writes + [Write(FilePath(dir, DOCKERFILE), dockerfile), Build(req)]
        == w.trace + writes + [Write(FilePath(dir, DOCKERFILE), dockerfile)] + [Build(req)];
  }

  lemma {:induction false} WritesCount(ops: seq<Op>, key: string)
    requires forall i | 0 <= i < |ops| :: ops[i].Write?
    ensures BuildsOf(ops, key) == 0 && AllBuilds(ops) == 0 && RemovesOf(ops, key) == 0 && PullsOf(ops, key) == 0
  {
    if |ops| > 0 {
      assert forall i | 0 <= i < |ops[1..]| :: ops[1..][i] == ops[i + 1];
      WritesCount(ops[1..], key);
    }
  }
}
