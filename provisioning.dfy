/**
 * Container provisioning (`build_container`): forced removal of the instance
 * image, then the pull path for a remote image or `build_instance_image` for a
 * local one, then one container creation, cleaned up when it fails.
 */
module Provisioning {
  import opened Wrappers
  import opened Registry
  import opened BuildUnit
  import opened InstanceImages

  /** The daemon's side of a pull: recorded, and the image is present when it
      was found. */
  function PullEffect(w: World, key: string, res: PullResult): (w': World)
  {
    w.(images := if res.Pulled? then w.images + {key} else w.images, trace := w.trace + [Pull(key)])
  }

  function PullFailedMessage(spec: TestSpec, message: string): string
  {
    "Error occurred while pulling image " + spec.baseImageKey + ": " + message
  }

  /** The remote branch: pull the instance image only when it is absent. */
  function PullSpec(w: World, o: Oracle, spec: TestSpec, logPath: FilePath): (out: (World, Result<(), Error>))
  {
    var key := spec.instanceImageKey;
    if key in w.images then (w, Ok(()))
    else
      var res := o.pull(key);
      var w1 := PullEffect(w, key, res);
      match res
      case Pulled => (w1, Ok(()))
      case NotFound(m) => (w1, Err(BuildImageError(spec.instanceId, m, logPath, None)))
      case PullFailed(m) => (w1, Err(Failure(PullFailedMessage(spec, m))))
  }

  /** The arguments of `client.containers.create` for this spec. */
  function ContainerRequest(spec: TestSpec, name: string, user: string): CreateRequest
  {
    CreateRequest(spec.instanceImageKey, name, user, true, PLACEHOLDER_COMMAND, spec.platform, CapAdd(spec))
  }

  /** The `try` block that creates the container. A failed creation leaves no
      container, so `cleanup_container` is handed None. */
  function CreateSpec(w: World, o: Oracle, spec: TestSpec, name: string, user: string, logPath: FilePath)
    : (res: (World, Result<Container, Error>))
  {
    var req := ContainerRequest(spec, name, user);
    match o.create(req)
    case Created(id) => (w.(trace := w.trace + [Create(req)]), Ok(Container(id, req)))
    case CreateFailed(m) =>
      (w.(trace := w.trace + [Create(req), Cleanup(None)]), Err(BuildImageError(spec.instanceId, m, logPath, None)))
  }

  /** Everything before the creation: forced removal, then pull or build. */
  function PrepareImage(w: World, o: Oracle, spec: TestSpec, logPath: FilePath, nocache: bool, force: bool)
    : (res: (World, Result<(), Error>))
  {
    var w1 := if force then RemoveImage(w, spec.instanceImageKey) else w;
    if spec.isRemoteImage then PullSpec(w1, o, spec, logPath)
    else InstanceImageSpec(w1, o, spec, logPath, nocache)
  }

  /** `build_container(test_spec, client, run_id, logger, nocache, force_rebuild)`,
      with the container's name and DOCKER_USER given. */
  function ContainerSpec(w: World, o: Oracle, spec: TestSpec, name: string, user: string,
                         logPath: FilePath, nocache: bool, force: bool)
    : (res: (World, Result<Container, Error>))
  {
    var (w1, r) := PrepareImage(w, o, spec, logPath, nocache, force);
    if r.Err? then (w1, Err(r.error)) else CreateSpec(w1, o, spec, name, user, logPath)
  }

  /** A remote image is never built; it is pulled exactly when it is absent
      after the forced removal, and a NotFound from the pull raises
      BuildImageError before any container is created. */
  lemma RemoteNeverBuilds(w: World, o: Oracle, spec: TestSpec, name: string, user: string,
                          logPath: FilePath, nocache: bool, force: bool)
    requires spec.isRemoteImage
    ensures var (w', r) := ContainerSpec(w, o, spec, name, user, logPath, nocache, force);
      var key := spec.instanceImageKey;
      var needed := force || key !in w.images;
      && AllBuilds(w'.trace) == AllBuilds(w.trace)
      && PullsOf(w'.trace, key) == PullsOf(w.trace, key) + (if needed then 1 else 0)
      && (needed && o.pull(key).NotFound? ==>
            && r == Err(BuildImageError(spec.instanceId, o.pull(key).message, logPath, None))
            && w'.trace == w.trace + (if force then [Remove(key)] else []) + [Pull(key)])
  {
    var key := spec.instanceImageKey;
    var w1 := if force then RemoveImage(w, key) else w;
    if force {
      CountsAppend(w.trace, [Remove(key)], key);
      CountsSingle(Remove(key), key);
    }
    if force || key !in w.images {
      CountsAppend(w1.trace, [Pull(key)], key);
      CountsSingle(Pull(key), key);
    }
    var w2 := PrepareImage(w, o, spec, logPath, nocache, force).0;
    CreateCounts(w2, o, spec, name, user, logPath, key);
  }

  /** Creating the container, cleaned up or not, builds and pulls nothing. */
  lemma CreateCounts(w: World, o: Oracle, spec: TestSpec, name: string, user: string, logPath: FilePath, k: string)
    ensures var w' := CreateSpec(w, o, spec, name, user, logPath).0;
      && AllBuilds(w'.trace) == AllBuilds(w.trace)
      && BuildsOf(w'.trace, k) == BuildsOf(w.trace, k)
      && PullsOf(w'.trace, k) == PullsOf(w.trace, k)
      && RemovesOf(w'.trace, k) == RemovesOf(w.trace, k)
  {
    var req := ContainerRequest(spec, name, user);
    CountsAppend(w.trace, [Create(req)], k);
    CountsSingle(Create(req), k);
    CountsAppend(w.trace, [Create(req), Cleanup(None)], k);
    CountsAppend([Create(req)], [Cleanup(None)], k);
    CountsSingle(Cleanup(None), k);
    assert [Create(req)] + [Cleanup(None)] == [Create(req), Cleanup(None)];
  }

  /** A local image never takes the pull path. */
  lemma LocalNeverPulls(w: World, o: Oracle, spec: TestSpec, name: string, user: string,
                        logPath: FilePath, nocache: bool, force: bool, k: string)
    requires !spec.isRemoteImage
    ensures PullsOf(ContainerSpec(w, o, spec, name, user, logPath, nocache, force).0.trace, k) == PullsOf(w.trace, k)
  {
    var key := spec.instanceImageKey;
    var w1 := if force then RemoveImage(w, key) else w;
    if force {
      CountsAppend(w.trace, [Remove(key)], k);
      CountsSingle(Remove(key), k);
    }
    InstanceImageCounts(w1, o, spec, logPath, nocache, k);
    var w2 := PrepareImage(w, o, spec, logPath, nocache, force).0;
    CreateCounts(w2, o, spec, name, user, logPath, k);
  }

  /** Forced rebuild removes the instance image before anything else. */
  lemma ForceRemovesFirst(w: World, o: Oracle, spec: TestSpec, name: string, user: string,
                          logPath: FilePath, nocache: bool)
    ensures var w' := ContainerSpec(w, o, spec, name, user, logPath, nocache, true).0;
      |w'.trace| > |w.trace| && w'.trace[..|w.trace| + 1] == w.trace + [Remove(spec.instanceImageKey)]
  {
    var w1 := RemoveImage(w, spec.instanceImageKey);
    var w2 := PrepareImage(w, o, spec, logPath, nocache, true).0;
    if spec.isRemoteImage {
      assert w1.trace <= w2.trace;
    } else {
      InstanceImageOutcomes(w1, o, spec, logPath, nocache);
      assert w1.trace <= w2.trace;
    }
    var w' := ContainerSpec(w, o, spec, name, user, logPath, nocache, true).0;
    assert w2.trace <= w'.trace;
    assert w1.trace <= w'.trace;
  }

  /** A failed creation is cleaned up and re-raised as BuildImageError; a
      successful one is created from an image present in the registry,
      detached, with the placeholder command, the given user, the spec's
      platform and its `cap_add` (empty by default). */
  lemma CreateOutcomes(w: World, o: Oracle, spec: TestSpec, name: string, user: string,
                       logPath: FilePath, nocache: bool, force: bool)
    requires PrepareImage(w, o, spec, logPath, nocache, force).1.Ok?
    ensures var w1 := PrepareImage(w, o, spec, logPath, nocache, force).0;
      var (w', r) := ContainerSpec(w, o, spec, name, user, logPath, nocache, force);
      var req := ContainerRequest(spec, name, user);
      && (o.create(req).CreateFailed? ==>
            && w'.trace == w1.trace + [Create(req), Cleanup(None)]
            && r == Err(BuildImageError(spec.instanceId, o.create(req).message, logPath, None)))
      && (o.create(req).Created? ==>
            && w'.trace == w1.trace + [Create(req)]
            && r == Ok(Container(o.create(req).id, req))
            && req.image == spec.instanceImageKey && req.image in w'.images
            && req.detach && req.command == "tail -f /dev/null" && req.user == user
            && req.platform == spec.platform
            && req.capAdd == (if spec.runArgs.Some? && spec.runArgs.value.capAdd.Some?
                              then spec.runArgs.value.capAdd.value else []))
  {
    var w1 := if force then RemoveImage(w, spec.instanceImageKey) else w;
    if !spec.isRemoteImage {
      InstanceImageCounts(w1, o, spec, logPath, nocache, "");
    }
  }
}
