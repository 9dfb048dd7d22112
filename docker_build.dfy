/**
 * The functions of docker_build.py as imperative code over a Docker client
 * object. Each one is proved to change the client exactly as the matching
 * specification function says.
 */
module DockerBuild {
  import opened Wrappers
  import opened Registry
  import opened Dicts
  import opened BuildUnit
  import opened BaseImages
  import opened EnvImages
  import opened InstanceImages
  import opened Provisioning

  /** A logger made by `setup_logger`: its log file, whether its handlers are
      still open, and the warnings it was given. */
  class Logger {
    const logFile: FilePath
    var open: bool
    var warnings: seq<string>

    constructor (logFile: FilePath)
      ensures this.logFile == logFile && open && warnings == []
    {
      this.logFile := logFile;
      open := true;
      warnings := [];
    }

    method Warning(message: string)
      modifies this
      ensures warnings == old(warnings) + [message] && open == old(open)
    {
      warnings := warnings + [message];
    }
  }

  /** `close_logger(logger)`. */
  method CloseLogger(logger: Logger)
    modifies logger
    ensures !logger.open && logger.warnings == old(logger.warnings)
  {
    logger.open := false;
  }

  /** The Docker client together with the build directories it reads: the
      images present, the files written, and the trace of effects. */
  class Client {
    var images: set<string>
    var files: map<FilePath, string>
    ghost var trace: seq<Op>
    const oracle: Oracle

    constructor (images: set<string>, oracle: Oracle)
      ensures State() == World(images, map[], []) && this.oracle == oracle
    {
      this.images := images;
      files := map[];
      trace := [];
      this.oracle := oracle;
    }

    ghost function State(): World
      reads this
    {
      World(images, files, trace)
    }

    /** `client.images.get(key)` answering without ImageNotFound. */
    method ImageExists(key: string) returns (b: bool)
      ensures b == (key in images)
    {
      b := key in images;
    }

    /** `remove_image(client, key, "quiet")`. */
    method RemoveImage(key: string)
      modifies this
      ensures State() == Registry.RemoveImage(old(State()), key)
    {
      images := images - {key};
      trace := trace + [Remove(key)];
    }

    /** `open(path, "w").write(content)`. */
    method WriteFile(path: FilePath, content: string)
      modifies this
      ensures State() == Registry.WriteFile(old(State()), path, content)
    {
      files := files[path := content];
      trace := trace + [Write(path, content)];
    }

    /** `client.api.build(...)`: the stream the daemon answers with. */
    method ApiBuild(req: BuildRequest) returns (resp: Response)
      modifies this
      ensures resp == oracle.build(req) && State() == Built(old(State()), req, resp)
    {
      resp := oracle.build(req);
      if Succeeds(resp) { images := images + {req.tag}; }
      trace := trace + [Build(req)];
    }

    /** `client.images.pull(key)`. */
    method PullImage(key: string) returns (res: PullResult)
      modifies this
      ensures res == oracle.pull(key) && State() == PullEffect(old(State()), key, res)
    {
      res := oracle.pull(key);
      if res.Pulled? { images := images + {key}; }
      trace := trace + [Pull(key)];
    }

    /** `client.containers.create(...)`. */
    method CreateContainer(req: CreateRequest) returns (res: CreateResult)
      modifies this
      ensures res == oracle.create(req) && State() == old(State()).(trace := old(trace) + [Create(req)])
    {
      res := oracle.create(req);
      trace := trace + [Create(req)];
    }

    /** `cleanup_container(client, container, logger)`. */
    method CleanupContainer(container: Option<string>)
      modifies this
      ensures State() == old(State()).(trace := old(trace) + [Cleanup(container)])
    {
      trace := trace + [Cleanup(container)];
    }
  }

  /** The loop of `build_image` over the daemon's decoded stream: stream text
      is cleaned and appended to the log, and an errorDetail chunk stops it. */
  method ConsumeStream(chunks: seq<Chunk>, ansi: string -> string) returns (buildlog: string, error: Option<string>)
    ensures StreamResult(buildlog, error) == Consume(chunks, ansi)
  {
    buildlog := "";
    error := None;
    var j := 0;
    while j < |chunks| && error.None?
      invariant 0 <= j <= |chunks|
      invariant error.None? ==>
        Consume(chunks, ansi) == StreamResult(buildlog + Consume(chunks[j..], ansi).buildLog, Consume(chunks[j..], ansi).error)
      invariant error.Some? ==> Consume(chunks, ansi) == StreamResult(buildlog, error)
    {
      var chunk := chunks[j];
      assert chunks[j..][1..] == chunks[j + 1..];
      if chunk.Stream? {
        buildlog := buildlog + ansi(chunk.text);
      } else if chunk.ErrorDetail? {
        error := Some(chunk.message);
      }
      j := j + 1;
    }
  }

  /** `build_image`: the logger it opens is closed on every path, and it logs
      one warning per setup script the Dockerfile does not mention. */
  method BuildImage(client: Client, imageName: string, setupScripts: seq<(string, string)>,
                    dockerfile: string, platform: string, buildDir: BuildDir, nocache: bool)
    returns (r: Result<(), Error>, ghost used: Logger)
    modifies client
    ensures (client.State(), r) == BuildImageSpec(old(client.State()), client.oracle, imageName, setupScripts,
                                                  dockerfile, platform, buildDir, nocache)
    ensures fresh(used) && !used.open && used.logFile == FilePath(buildDir, BUILD_IMAGE_LOG)
    ensures used.warnings == UnusedScriptWarnings(setupScripts, dockerfile)
  {
    var logger := new Logger(FilePath(buildDir, BUILD_IMAGE_LOG));
    ghost var w0 := client.State();
    var i := 0;
    while i < |setupScripts|
      invariant 0 <= i <= |setupScripts|
      invariant WriteScripts(w0, buildDir, setupScripts) == WriteScripts(client.State(), buildDir, setupScripts[i..])
      invariant logger.warnings == UnusedScriptWarnings(setupScripts[..i], dockerfile)
    {
      var (name, content) := setupScripts[i];
      assert setupScripts[i..][1..] == setupScripts[i + 1..];
      client.WriteFile(FilePath(buildDir, name), content);
      if !Occurs(name, dockerfile) {
        logger.Warning(UnusedScriptWarning(name));
      }
      assert setupScripts[..i + 1][..i] == setupScripts[..i];
      i := i + 1;
    }
    assert setupScripts[..i] == setupScripts;
    client.WriteFile(FilePath(buildDir, DOCKERFILE), dockerfile);
    var response := client.ApiBuild(BuildRequest(buildDir, imageName, platform, nocache));
    var buildlog, error := ConsumeStream(response.chunks, client.oracle.ansi);
    if error.Some? {
      r := Err(BuildImageError(imageName, error.value, logger.logFile, Some(buildlog)));
    } else if response.failure.Some? {
      r := Err(BuildImageError(imageName, response.failure.value, logger.logFile, None));
    } else {
      r := Ok(());
    }
    CloseLogger(logger);
    used := logger;
  }

  /** `build_base_images`: the plan's items in order; a failed build is not
      caught, so it ends the loop and the call. */
  method BuildBaseImages(client: Client, specs: seq<TestSpec>, force: bool) returns (r: Result<(), Error>)
    modifies client
    ensures (client.State(), r) == BuildBaseImagesSpec(old(client.State()), client.oracle, specs, force)
  {
    ghost var w0 := client.State();
    var items := BasePlan(specs).Items();
    var i := 0;
    while i < |items|
      invariant 0 <= i <= |items|
      invariant BuildBaseImagesSpec(w0, client.oracle, specs, force) == BaseRun(client.State(), client.oracle, items[i..], force)
    {
      var (key, entry) := items[i];
      ghost var step := BaseStep(client.State(), client.oracle, key, entry, force);
      assert items[i..][1..] == items[i + 1..];
      assert BaseRun(client.State(), client.oracle, items[i..], force)
          == if step.1.Err? then step else BaseRun(step.0, client.oracle, items[i + 1..], force);
      var present := client.ImageExists(key);
      if present && !force {
        i := i + 1;
        continue;
      }
      if present {
        client.RemoveImage(key);
      }
      var res, _ := BuildImage(client, key, [], entry.0, entry.1, BaseDir(key), false);
      assert (client.State(), res) == step;
      if res.Err? {
        return res;
      }
      i := i + 1;
    }
    r := Ok(());
  }

  /** `get_env_configs_to_build`: it changes nothing, and each base image is
      looked up once and remembered. */
  method GetEnvConfigsToBuild(client: Client, specs: seq<TestSpec>) returns (r: Result<Dict<EnvConfig>, Error>)
    ensures r == EnvConfigs(specs, client.images)
  {
    var imageScripts: Dict<EnvConfig> := Empty();
    var baseImages: set<string> := {};
    var i := 0;
    while i < |specs|
      invariant 0 <= i <= |specs|
      invariant imageScripts.Valid()
      invariant baseImages <= client.images
      invariant EnvConfigs(specs, client.images) == EnvConfigsFrom(imageScripts, specs[i..], client.images)
    {
      var spec := specs[i];
      assert specs[i..][1..] == specs[i + 1..];
      if spec.baseImageKey !in baseImages {
        var found := client.ImageExists(spec.baseImageKey);
        if !found {
          return Err(Failure(BaseMissingMessage(spec)));
        }
        baseImages := baseImages + {spec.baseImageKey};
      }
      var imageExists := client.ImageExists(spec.envImageKey);
      if !imageExists {
        imageScripts := imageScripts.Put(spec.envImageKey, EnvEntry(spec));
      }
      i := i + 1;
    }
    assert specs[i..] == [];
    r := Ok(imageScripts);
  }

  /** `run_threadpool(build_image, args_list, max_workers)`, one task after
      another: a failed build is recorded and the pool goes on. */
  method RunBuildPool(client: Client, tasks: seq<Task>) returns (p: Partition)
    modifies client
    ensures (client.State(), p) == Pool(old(client.State()), client.oracle, tasks)
  {
    ghost var w0 := client.State();
    var successful: seq<string> := [];
    var failed: seq<string> := [];
    var i := 0;
    ghost var run := Pool(w0, client.oracle, tasks);
    assert tasks[0..] == tasks;
    assert [] + run.1.successful == run.1.successful && [] + run.1.failed == run.1.failed;
    while i < |tasks|
      invariant 0 <= i <= |tasks|
      invariant run == After(successful, failed, Pool(client.State(), client.oracle, tasks[i..]))
    {
      var t := tasks[i];
      ghost var w := client.State();
      assert tasks[i..][1..] == tasks[i + 1..];
      var res, _ := BuildImage(client, t.name, t.scripts, t.dockerfile, t.platform, t.dir, false);
      ghost var rest := Pool(client.State(), client.oracle, tasks[i + 1..]);
      assert (client.State(), res) == RunTask(w, client.oracle, t);
      assert Pool(w, client.oracle, tasks[i..]) == if res.Ok? then After([t.name], [], rest) else After([], [t.name], rest);
      if res.Ok? {
        AfterSuccess(successful, failed, t.name, rest);
        successful := successful + [t.name];
      } else {
        AfterFailure(successful, failed, t.name, rest);
        failed := failed + [t.name];
      }
      i := i + 1;
    }
    assert tasks[i..] == [];
    p := Partition(successful, failed);
    assert successful + [] == successful && failed + [] == failed;
  }

  /** The forced removal at the start of `build_env_images`: every env key of
      the batch, in whatever order the set is walked. */
  method RemoveEnvImages(client: Client, specs: seq<TestSpec>) returns (ghost order: seq<string>)
    modifies client
    ensures Enumerates(order, EnvKeys(specs))
    ensures client.State() == RemoveEach(old(client.State()), order)
  {
    ghost var w0 := client.State();
    order := [];
    var keys := set s | s in specs :: s.envImageKey;
    var remaining := keys;
    while remaining != {}
      invariant remaining <= keys
      invariant Enumerates(order, keys - remaining)
      invariant client.State() == RemoveEach(w0, order)
      decreases |remaining|
    {
      var key :| key in remaining;
      client.RemoveImage(key);
      assert (order + [key])[..|order|] == order;
      order := order + [key];
      remaining := remaining - {key};
    }
    assert keys - remaining == EnvKeys(specs);
  }

  /** The `args_list` of `build_env_images`: one `build_image` call per planned
      env image, in the plan's order. */
  method EnvArgs(d: Dict<EnvConfig>) returns (argsList: seq<Task>)
    requires d.Valid()
    ensures argsList == EnvTasks(d)
  {
    var items := d.Items();
    argsList := [];
    var i := 0;
    while i < |items|
      invariant 0 <= i <= |items|
      invariant argsList == EnvTasks(d)[..i]
    {
      var (name, config) := items[i];
      argsList := argsList + [Task(name, [(SETUP_ENV_SCRIPT, config.setupScript)], config.dockerfile, config.platform, EnvDir(name))];
      i := i + 1;
    }
  }

  /** `build_env_images`. The forced removals walk a set, and `order` is the
      order the walk took. */
  method BuildEnvImages(client: Client, specs: seq<TestSpec>, force: bool)
    returns (r: Result<Partition, Error>, ghost order: seq<string>)
    modifies client
    ensures force ==> Enumerates(order, EnvKeys(specs))
    ensures (client.State(), r) == EnvTierRun(old(client.State()), client.oracle, specs, force, order)
  {
    order := [];
    if force {
      order := RemoveEnvImages(client, specs);
    }
    var rb := BuildBaseImages(client, specs, force);
    if rb.Err? {
      return Err(rb.error), order;
    }
    var configs := GetEnvConfigsToBuild(client, specs);
    if configs.Err? {
      return Err(configs.error), order;
    }
    var d := configs.value;
    if |d.keys| == 0 {
      return Ok(Partition([], [])), order;
    }
    var argsList := EnvArgs(d);
    var p := RunBuildPool(client, argsList);
    r := Ok(p);
  }

  /** `build_instance_image`. Given no logger, it sets up its own on
      `prepare_image.log`, which it closes only when it returns normally; a
      logger it is given is left as it was. */
  method BuildInstanceImage(client: Client, spec: TestSpec, logger: Logger?, nocache: bool)
    returns (r: Result<(), Error>, ghost used: Logger)
    modifies client
    ensures logger != null ==> used == logger && logger.open == old(logger.open)
    ensures logger == null ==> fresh(used) && used.logFile == PrepareLog(spec) && used.open == r.Err?
    ensures (client.State(), r) == InstanceImageSpec(old(client.State()), client.oracle, spec, used.logFile, nocache)
  {
    var buildDir := InstanceDir(spec.instanceImageKey);
    var newLogger := false;
    var log: Logger;
    if logger == null {
      newLogger := true;
      log := new Logger(FilePath(buildDir, PREPARE_IMAGE_LOG));
    } else {
      log := logger;
    }
    used := log;
    var envExists := client.ImageExists(spec.envImageKey);
    if !envExists {
      return Err(BuildImageError(spec.instanceId, EnvMissingMessage(spec), log.logFile, None)), used;
    }
    var imageExists := client.ImageExists(spec.instanceImageKey);
    if !imageExists {
      var res, _ := BuildImage(client, spec.instanceImageKey, [(SETUP_REPO_SCRIPT, spec.installRepoScript)],
                               spec.instanceDockerfile, spec.platform, buildDir, nocache);
      if res.Err? {
        return res, used;
      }
    }
    if newLogger {
      CloseLogger(log);
    }
    r := Ok(());
  }

  /** `run_threadpool(build_instance_image, payloads, max_workers)` with no
      logger in any payload, one spec after another. */
  method RunInstancePool(client: Client, specs: seq<TestSpec>) returns (p: Partition)
    modifies client
    ensures (client.State(), p) == InstancePool(old(client.State()), client.oracle, specs)
  {
    ghost var w0 := client.State();
    var successful: seq<string> := [];
    var failed: seq<string> := [];
    var i := 0;
    ghost var run := InstancePool(w0, client.oracle, specs);
    assert specs[0..] == specs;
    assert [] + run.1.successful == run.1.successful && [] + run.1.failed == run.1.failed;
    while i < |specs|
      invariant 0 <= i <= |specs|
      invariant run == After(successful, failed, InstancePool(client.State(), client.oracle, specs[i..]))
    {
      var spec := specs[i];
      ghost var w := client.State();
      assert specs[i..][1..] == specs[i + 1..];
      var res, _ := BuildInstanceImage(client, spec, null, false);
      ghost var rest := InstancePool(client.State(), client.oracle, specs[i + 1..]);
      assert (client.State(), res) == InstanceImageSpec(w, client.oracle, spec, PrepareLog(spec), false);
      assert InstancePool(w, client.oracle, specs[i..])
        == if res.Ok? then After([spec.instanceImageKey], [], rest) else After([], [spec.instanceImageKey], rest);
      if res.Ok? {
        AfterSuccess(successful, failed, spec.instanceImageKey, rest);
        successful := successful + [spec.instanceImageKey];
      } else {
        AfterFailure(successful, failed, spec.instanceImageKey, rest);
        failed := failed + [spec.instanceImageKey];
      }
      i := i + 1;
    }
    assert specs[i..] == [];
    p := Partition(successful, failed);
    assert successful + [] == successful && failed + [] == failed;
  }

  /** The forced removal at the start of `build_instance_images`, spec by spec. */
  method RemoveInstanceImages(client: Client, specs: seq<TestSpec>)
    modifies client
    ensures client.State() == RemoveEach(old(client.State()), InstanceKeys(specs))
  {
    ghost var w0 := client.State();
    var i := 0;
    while i < |specs|
      invariant 0 <= i <= |specs|
      invariant client.State() == RemoveEach(w0, InstanceKeys(specs)[..i])
    {
      client.RemoveImage(specs[i].instanceImageKey);
      assert InstanceKeys(specs)[..i + 1][..i] == InstanceKeys(specs)[..i];
      i := i + 1;
    }
    assert InstanceKeys(specs)[..i] == InstanceKeys(specs);
  }

  /** `build_instance_images`, for test specs already made from the dataset. */
  method BuildInstanceImages(client: Client, specs: seq<TestSpec>, force: bool)
    returns (r: Result<Partition, Error>, ghost order: seq<string>)
    modifies client
    ensures force ==> Enumerates(order, EnvKeys(specs))
    ensures (client.State(), r) == InstanceTierRun(old(client.State()), client.oracle, specs, force, order)
  {
    if force {
      RemoveInstanceImages(client, specs);
    }
    var re;
    re, order := BuildEnvImages(client, specs, force);
    if re.Err? {
      return Err(re.error), order;
    }
    var runSpecs := specs;
    if |re.value.failed| > 0 {
      runSpecs := Runnable(specs, re.value.failed);
    }
    var p := RunInstancePool(client, runSpecs);
    r := Ok(p);
  }

  /** `build_container`, with the container's name and DOCKER_USER given. */
  method BuildContainer(client: Client, spec: TestSpec, name: string, user: string, logger: Logger,
                        nocache: bool, force: bool)
    returns (r: Result<Container, Error>)
    modifies client
    ensures logger.open == old(logger.open)
    ensures (client.State(), r) == ContainerSpec(old(client.State()), client.oracle, spec, name, user,
                                                 logger.logFile, nocache, force)
  {
    var key := spec.instanceImageKey;
    if force {
      client.RemoveImage(key);
    }
    if !spec.isRemoteImage {
      var built, _ := BuildInstanceImage(client, spec, logger, nocache);
      if built.Err? {
        return Err(built.error);
      }
    } else {
      var present := client.ImageExists(key);
      if !present {
        var pulled := client.PullImage(key);
        if pulled.NotFound? {
          return Err(BuildImageError(spec.instanceId, pulled.message, logger.logFile, None));
        } else if pulled.PullFailed? {
          return Err(Failure(PullFailedMessage(spec, pulled.message)));
        }
      }
    }
    ghost var w1 := client.State();
    var req := ContainerRequest(spec, name, user);
    var created := client.CreateContainer(req);
    if created.Created? {
      r := Ok(Container(created.id, req));
    } else {
      client.CleanupContainer(None);
      assert client.trace == w1.trace + [Create(req), Cleanup(None)];
      r := Err(BuildImageError(spec.instanceId, created.message, logger.logFile, None));
    }
  }
}
