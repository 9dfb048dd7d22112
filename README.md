# Docker image tiers of the SWE-bench harness, in Dafny

This project models `benchmarks/swebench/harness/docker_build.py`, the module that
prepares Docker images and containers for SWE-bench evaluations. Images come in
three tiers:

- a **base** image per distinct `base_image_key`;
- an **env** image per distinct `env_image_key`, built from a base image and `setup_env.sh`;
- an **instance** image per test spec, built from its env image and `setup_repo.sh`.

`build_container` then takes one instance image and creates a detached container
from it.

The model keeps the source's shape:

- **Spec layer** (modules `Registry`, `Dicts`, `BuildUnit`, `BaseImages`, `EnvImages`,
  `InstanceImages`, `Provisioning`). Each Python function becomes a function from a
  `World` to a new `World` and a result. A `World` holds the images present, the files
  written into build directories, and a trace of the effects issued: remove, write,
  build, pull, create and clean up.
  - The Docker daemon's answers are fixed by an `Oracle`: the decoded build stream,
    pull and create outcomes, and the `ansi_escape` helper.
  - Python dicts are `Dict` values with an explicit key order. Insertion order is
    kept, and a later assignment overwrites the value without moving the key.
  - Errors are a `Result`. `BuildImageError` keeps its image name, its message and
    the log file of the logger it was raised with. Its `buildLog` field stands for
    the `build_log` of the `docker.errors.BuildError` that the source chains as the
    cause (`raise … from e`). The source's exception object does not hold a build
    log itself. A plain `Exception` is `Failure(message)`.
- **Imperative layer** (module `DockerBuild`):
  - A `Client` class holds the images and files, its trace as a ghost field, and the
    oracle.
  - A `Logger` class has `open` and `warnings` fields; `close_logger` clears `open`.
  - One method per Python function, with the same loops, early returns and
    cleanups. Each method is proved to leave the client exactly as its
    spec-layer function says and to return the same result. The lemmas about
    those functions then state what the source promises.

## Model

| member | source | states |
|---|---|---|
| DockerBuild.CloseLogger | benchmarks/swebench/harness/docker_build.py:63-67 | after closing, the logger is marked closed and its recorded warnings are unchanged (the model's logger has a single handler; see "Left out") |
| DockerBuild.Logger.Warning | benchmarks/swebench/harness/docker_build.py:103-104 | a warning is appended to the logger's warnings and nothing else changes |
| DockerBuild.Client.ApiBuild | benchmarks/swebench/harness/docker_build.py:113-121 | the build request is recorded; the response is the daemon's; the tag is added to the images exactly when the build succeeded, and the images are otherwise unchanged |
| DockerBuild.Client.ImageExists | benchmarks/swebench/harness/docker_build.py:163 | a lookup changes nothing and answers exactly whether the image is present |
| DockerBuild.Client.WriteFile | benchmarks/swebench/harness/docker_build.py:99-109 | writing a file stores its content under its path, records one Write and leaves the images alone |
| DockerBuild.Client.PullImage | benchmarks/swebench/harness/docker_build.py:424 | the pull is recorded, the answer is the daemon's, and the image is added to the images exactly when it was pulled, which are otherwise unchanged |
| DockerBuild.Client.CreateContainer | benchmarks/swebench/harness/docker_build.py:439-447 | the creation request is recorded, the answer is the daemon's, and images and files are unchanged |
| DockerBuild.Client.CleanupContainer | benchmarks/swebench/harness/docker_build.py:454 | the cleanup of the given container, or of none, is recorded and nothing else changes |
| DockerBuild.Client.RemoveImage | benchmarks/swebench/harness/docker_build.py:166 | a quiet removal leaves the image absent, records one Remove and does not touch the files |
| DockerBuild.ConsumeStream | benchmarks/swebench/harness/docker_build.py:124-134 | the loop's build log and error are those of `Consume`, which `BuildUnit.ConsumeSpec` shows to be the cleaned stream text before the first errorDetail chunk and that chunk's message |
| DockerBuild.BuildImage | benchmarks/swebench/harness/docker_build.py:70-143 | the new client state and result equal `BuildImageSpec`; the logger made for `build_image.log` in the build directory is closed on every path; it holds one warning per setup script whose name the Dockerfile does not contain, in order |
| DockerBuild.BuildBaseImages | benchmarks/swebench/harness/docker_build.py:146-182 | the new state and result equal `BuildBaseImagesSpec`; the loop walks the plan's items and returns at the first failed build |
| DockerBuild.GetEnvConfigsToBuild | benchmarks/swebench/harness/docker_build.py:185-224 | changes nothing, and returns exactly `EnvConfigs`, even though base-image lookups are cached |
| DockerBuild.RunBuildPool | benchmarks/swebench/harness/docker_build.py:267 | running the tasks one after another gives the state and the successful/failed lists of `Pool` |
| DockerBuild.RemoveEnvImages | benchmarks/swebench/harness/docker_build.py:243-246 | every env key of the batch is removed once; the walk order enumerates the set of keys |
| DockerBuild.EnvArgs | benchmarks/swebench/harness/docker_build.py:253-265 | `args_list` is one `build_image` task per planned env image, in the plan's order, with the single script `setup_env.sh` and the env build directory |
| DockerBuild.BuildEnvImages | benchmarks/swebench/harness/docker_build.py:227-275 | the new state and result equal `EnvTierRun` under the removal order it took; on forced rebuild that order lists each env key exactly once |
| DockerBuild.BuildInstanceImage | benchmarks/swebench/harness/docker_build.py:329-392 | the new state and result equal `InstanceImageSpec` with the log file of the logger in use; a logger it sets up itself is on `prepare_image.log` and is left open exactly when an error is raised; a given logger is left as it was |
| DockerBuild.RunInstancePool | benchmarks/swebench/harness/docker_build.py:316-318 | building the payloads one after another, each without a logger, gives the state and lists of `InstancePool` |
| DockerBuild.RemoveInstanceImages | benchmarks/swebench/harness/docker_build.py:302-304 | each spec's instance image is removed in the batch's order, as `RemoveEach` of the instance keys |
| DockerBuild.BuildInstanceImages | benchmarks/swebench/harness/docker_build.py:278-326 | the new state and result equal `InstanceTierRun` under the env tier's removal order |
| DockerBuild.BuildContainer | benchmarks/swebench/harness/docker_build.py:395-455 | the new state and result equal `ContainerSpec` with the given logger's log file; the logger's open flag is not changed |
| Registry.DirName | benchmarks/swebench/harness/docker_build.py:180 | the build directory name has no colon, keeps every other character of the key and adds only `_`; a key without a colon is unchanged |
| Registry.DirNameCollides | benchmarks/swebench/harness/docker_build.py:180 | the directory naming is not injective: `a:b` and `a__b` share a build directory |
| Registry.RemoveEachEffect | benchmarks/swebench/harness/docker_build.py:245-246 | removing a list of keys removes exactly those images, leaves the files alone and records one Remove per key in order |
| Registry.PartitionByImages | benchmarks/swebench/harness/docker_build.py:267 | when a pool's names are distinct and absent beforehand and it adds only the images it reports successful, its two lists are exactly the present and the absent names |
| Registry.ReportsCons | benchmarks/swebench/harness/docker_build.py:267 | prepending one key, reported by whether its own build left it present, to a partition that is reported by presence keeps it reported by presence |
| Registry.CountsAppend | benchmarks/swebench/harness/docker_build.py:160-181 | counting builds, removals and pulls adds up over concatenated traces |
| Dicts.FoldPutKeys | benchmarks/swebench/harness/docker_build.py:157 | a dict comprehension maps a key exactly when some element produces it |
| Dicts.FoldPutKeeps | benchmarks/swebench/harness/docker_build.py:157 | a key no later element produces keeps its earlier value |
| Dicts.FoldPutLastWins | benchmarks/swebench/harness/docker_build.py:157 | the value kept for a key is that of the last element producing it |
| BuildUnit.ConsumeSpec | benchmarks/swebench/harness/docker_build.py:124-134 | the log is the cleaned text of the stream chunks before the first errorDetail chunk, and the error is that chunk's message, or none when no such chunk exists |
| BuildUnit.FirstErrorAt | benchmarks/swebench/harness/docker_build.py:131-134 | the position found is that of the first errorDetail chunk, or the stream's length when there is none |
| BuildUnit.UnusedScriptWarnings | benchmarks/swebench/harness/docker_build.py:99-104 | a warning is logged for a setup script exactly when the Dockerfile does not mention its name, and each warning names such a script |
| BuildUnit.UnusedScriptWarningsAppend | benchmarks/swebench/harness/docker_build.py:99-104 | the warnings for two consecutive runs of scripts are those of the first run followed by those of the second, so they come in script order |
| BuildUnit.UnusedScriptWarningsSingle | benchmarks/swebench/harness/docker_build.py:99-104 | one script gives exactly one warning naming it when the Dockerfile does not mention its name, and none otherwise |
| BuildUnit.UnusedScriptWarningsCount | benchmarks/swebench/harness/docker_build.py:99-104 | the number of warnings equals the number of scripts whose name the Dockerfile does not mention |
| BuildUnit.WriteScriptsEffect | benchmarks/swebench/harness/docker_build.py:99-102 | writing the setup scripts issues one Write per script in order and does not touch the images |
| BuildUnit.WriteScriptsFiles | benchmarks/swebench/harness/docker_build.py:99-102 | every setup script is in the build directory afterwards |
| BuildUnit.WriteScriptsKeeps | benchmarks/swebench/harness/docker_build.py:99-102 | a file already written stays written |
| BuildUnit.BuildImageEffect | benchmarks/swebench/harness/docker_build.py:70-143 | scripts, then the Dockerfile, are written before one build request; the image is added to the images exactly when the build succeeded, and otherwise the images are unchanged and a BuildImageError for this image names `build_image.log` in the build directory |
| BuildUnit.BuildImageErrorDetail | benchmarks/swebench/harness/docker_build.py:131-138 | an errorDetail chunk raises BuildImageError with that chunk's message and the cleaned log of the stream chunks before it |
| BuildUnit.BuildImageCounts | benchmarks/swebench/harness/docker_build.py:113-121 | one build call issues exactly one build, of its own tag, and no removal or pull |
| BuildUnit.WritesCount | benchmarks/swebench/harness/docker_build.py:99-109 | file writes contain no build, removal or pull |
| BaseImages.BasePlanSpec | benchmarks/swebench/harness/docker_build.py:157 | the base plan lists each distinct base key once, covers exactly the batch's base keys, and holds the Dockerfile and platform of the last spec with that key |
| BaseImages.BasePlanKeys | benchmarks/swebench/harness/docker_build.py:157-160 | the keys iterated are exactly the batch's base keys |
| BaseImages.BaseStepTrace | benchmarks/swebench/harness/docker_build.py:161-181 | for one key: present and not forced is skipped with no effect; present and forced is one removal followed by the Dockerfile write and the build; absent is the write and the build |
| BaseImages.BaseStepCounts | benchmarks/swebench/harness/docker_build.py:161-181 | for one key: a build exactly when it is absent or forced, a removal exactly when present and forced; other images are untouched |
| BaseImages.BaseRunImages | benchmarks/swebench/harness/docker_build.py:160-181 | a base tier that succeeds leaves every planned base image present and adds nothing else |
| BaseImages.BaseRunCounts | benchmarks/swebench/harness/docker_build.py:160-181 | for a tier that succeeds, over distinct keys: each planned image is built exactly when absent or forced, and removed exactly when present and forced |
| BaseImages.BaseRunAtMostOnce | benchmarks/swebench/harness/docker_build.py:160-181 | whether the tier succeeds or a failed build ends it, over distinct keys each planned image is built at most once and removed at most once, and a key outside the plan is neither built nor removed |
| BaseImages.BaseTierCounts | benchmarks/swebench/harness/docker_build.py:146-182 | for a whole batch whose tier succeeds: builds and removals per base key as in `BaseRunCounts`, and the images after are those before plus the batch's base keys |
| BaseImages.BaseTierAtMostOnce | benchmarks/swebench/harness/docker_build.py:146-182 | for the whole batch, whether the tier succeeds or is ended by a failed build: each base key is built at most once and removed at most once, and no other key is built or removed |
| BaseImages.BaseFailureAborts | benchmarks/swebench/harness/docker_build.py:174-181 | once a build fails, the keys after it are never attempted |
| BaseImages.BaseRunAllPresent | benchmarks/swebench/harness/docker_build.py:163-170 | without force, a plan whose images are all present does nothing |
| BaseImages.BaseTierIdempotent | benchmarks/swebench/harness/docker_build.py:146-182 | right after a successful base tier, running it again without force changes nothing |
| EnvImages.FirstMissingBase | benchmarks/swebench/harness/docker_build.py:201-208 | the position found is that of the first spec whose base image is absent, or the length |
| EnvImages.EnvConfigsError | benchmarks/swebench/harness/docker_build.py:203-208 | planning fails exactly when some spec's base image is absent, with the message naming the first such spec's base and env keys |
| EnvImages.EnvConfigsKeys | benchmarks/swebench/harness/docker_build.py:210-222 | a key is planned exactly when it was already planned or some spec names it as an absent env image |
| EnvImages.EnvConfigsKeeps | benchmarks/swebench/harness/docker_build.py:217-222 | an entry no later spec overwrites is kept |
| EnvImages.EnvConfigsLastWins | benchmarks/swebench/harness/docker_build.py:217-222 | a planned env image holds the setup script, Dockerfile and platform of the last spec naming it |
| EnvImages.EnvPlanSpec | benchmarks/swebench/harness/docker_build.py:185-224 | when planning succeeds, the plan lists each key once and holds exactly the absent env keys of the batch, each with its last spec's config |
| EnvImages.PoolSpec | benchmarks/swebench/harness/docker_build.py:267 | every task is attempted once and lands in exactly one of the two lists; each task issues one build of its own tag; the pool removes nothing and only adds images |
| EnvImages.PoolSuccessPresent | benchmarks/swebench/harness/docker_build.py:267 | every image reported successful is present when the pool is done |
| EnvImages.PoolImages | benchmarks/swebench/harness/docker_build.py:267 | the pool adds to the registry exactly the images it reports successful |
| EnvImages.PoolReports | benchmarks/swebench/harness/docker_build.py:267 | over distinct task names, a task is reported successful exactly when the daemon built its image, and failed exactly when it did not |
| EnvImages.PoolOutcome | benchmarks/swebench/harness/docker_build.py:267 | over distinct tasks whose images are absent beforehand, a name is reported successful exactly when its image is present afterwards and failed exactly when it is absent |
| EnvImages.EnvPlanReports | benchmarks/swebench/harness/docker_build.py:249-275 | once planning succeeded, an env image is reported failed exactly when the batch names it and it is absent afterwards, and every reported success is present |
| EnvImages.EnvTierReports | benchmarks/swebench/harness/docker_build.py:227-275 | when the env tier returns, its failed list holds exactly the batch's env images that are absent, and every image in its successful list is present |
| EnvImages.EnvTierAllPresent | benchmarks/swebench/harness/docker_build.py:227-275 | without force, when every base and env image of the batch is present, the env tier builds nothing, changes nothing and reports two empty lists |
| EnvImages.EnvTierBasePresent | benchmarks/swebench/harness/docker_build.py:227-275 | when the env tier returns, every base image of the batch is present |
| EnvImages.EnvTierIdempotent | benchmarks/swebench/harness/docker_build.py:227-275 | after an env tier that returns with no failures, running it again without force builds nothing, changes nothing and reports two empty lists |
| EnvImages.EnvForceRemoval | benchmarks/swebench/harness/docker_build.py:243-246 | forced rebuild removes every env image of the batch, each exactly once, before the base tier |
| EnvImages.RemoveOpsCount | benchmarks/swebench/harness/docker_build.py:245-246 | the removal ops of a duplicate-free list remove each listed key once and no other key |
| EnvImages.EnvPlanEmpty | benchmarks/swebench/harness/docker_build.py:249-251 | when every base and env image of the batch is present, planning succeeds with an empty plan |
| EnvImages.EnvNothingToBuild | benchmarks/swebench/harness/docker_build.py:249-251 | without force, when the base tier succeeds and every env image is already present, the env tier returns two empty lists and does nothing after the base tier |
| EnvImages.EnvPoolSpec | benchmarks/swebench/harness/docker_build.py:253-267 | the env pool builds each planned env image exactly once, with the single setup script `setup_env.sh`, and every planned image lands in exactly one list |
| EnvImages.TasksForDistinct | benchmarks/swebench/harness/docker_build.py:255 | over distinct task names, a key has one task when it is planned and none otherwise |
| InstanceImages.InstanceImageOutcomes | benchmarks/swebench/harness/docker_build.py:356-389 | a missing env image raises BuildImageError with the env message and changes nothing; a present instance image is left alone; otherwise `setup_repo.sh` and the Dockerfile are written and the image is built once, and is present afterwards exactly when the build succeeded |
| InstanceImages.InstanceImageCounts | benchmarks/swebench/harness/docker_build.py:356-389 | one instance build issues at most one build, of the instance image, and no removal or pull; on success the registry gains exactly the instance image, and on failure it is unchanged |
| InstanceImages.RunnableMembers | benchmarks/swebench/harness/docker_build.py:307-310 | a spec is kept exactly when its env image did not fail |
| InstanceImages.RunnableAppend | benchmarks/swebench/harness/docker_build.py:310 | the kept specs keep the batch's order |
| InstanceImages.RunnableNoFailure | benchmarks/swebench/harness/docker_build.py:307 | with no failure nothing is dropped, so the `len(env_failed) > 0` guard does not change the outcome |
| InstanceImages.InstancePoolSpec | benchmarks/swebench/harness/docker_build.py:316-318 | every spec handed to the pool lands in exactly one list; each image is built at most once per spec naming it; nothing is removed and nothing disappears |
| InstanceImages.InstancePoolImages | benchmarks/swebench/harness/docker_build.py:316-318 | the pool adds to the registry exactly the images it reports successful, so each reported success is present afterwards |
| InstanceImages.InstancePoolOutcome | benchmarks/swebench/harness/docker_build.py:316-318 | over specs with distinct instance images, all absent beforehand, an image is reported successful exactly when it is present afterwards and failed exactly when it is absent |
| InstanceImages.InstancePoolReports | benchmarks/swebench/harness/docker_build.py:316-318 | over specs with distinct instance images whose env images are present, an image is reported successful exactly when it is one of the batch's and present afterwards, and failed exactly when it is one of the batch's and absent afterwards, whether or not it was present beforehand |
| InstanceImages.InstanceStepPresent | benchmarks/swebench/harness/docker_build.py:367-389 | with its env image present, one instance build succeeds exactly when its image is present afterwards, and removes no image |
| InstanceImages.InstancePoolAllPresent | benchmarks/swebench/harness/docker_build.py:367-373 | when every spec's env and instance image is present, the pool changes nothing and reports every instance image successful, in order |
| InstanceImages.InstancePoolAllSucceed | benchmarks/swebench/harness/docker_build.py:316-318 | a pool that reports no failure removes no image and leaves every spec's instance image present |
| InstanceImages.RunnableNoDup | benchmarks/swebench/harness/docker_build.py:305-310 | dropping the specs whose env image failed keeps the instance images distinct |
| InstanceImages.InstanceTierReports | benchmarks/swebench/harness/docker_build.py:278-326 | past a successful env tier, over a batch with distinct instance images, the instance tier returns, and over the kept specs an image is reported successful exactly when present afterwards and failed exactly when absent afterwards |
| InstanceImages.InstanceTierAllPresent | benchmarks/swebench/harness/docker_build.py:278-326 | without force, when every base, env and instance image of the batch is present, the instance tier changes nothing and reports every instance image successful |
| InstanceImages.InstanceTierLeavesPresent | benchmarks/swebench/harness/docker_build.py:278-326 | a tier run whose env and instance stages report no failure leaves every base, env and instance image of the batch present |
| InstanceImages.InstanceTierIdempotent | benchmarks/swebench/harness/docker_build.py:278-326 | after an instance tier with no failures at either stage, running it again without force builds nothing, changes nothing and reports every instance image successful |
| InstanceImages.SpecsForAbsent | benchmarks/swebench/harness/docker_build.py:316 | a key that no spec names has no payload |
| InstanceImages.InstanceForceRemoval | benchmarks/swebench/harness/docker_build.py:302-304 | forced rebuild removes every spec's instance image, in the batch's order, before the env tier |
| InstanceImages.InstanceTierSkipsFailed | benchmarks/swebench/harness/docker_build.py:305-318 | after the env tier, the pool gets exactly the specs whose env image did not fail; each of them lands in one list; an image no such spec names is not built by the instance tier |
| InstanceImages.InstanceTierPool | benchmarks/swebench/harness/docker_build.py:307-318 | past a successful env tier, the instance tier is the pool over the kept specs |
| Provisioning.RemoteNeverBuilds | benchmarks/swebench/harness/docker_build.py:415-428 | a remote image is never built; it is pulled exactly when it is absent after the forced removal; a NotFound from the pull raises BuildImageError and no container is created |
| Provisioning.LocalNeverPulls | benchmarks/swebench/harness/docker_build.py:417-418 | a local image never takes the pull path |
| Provisioning.CreateCounts | benchmarks/swebench/harness/docker_build.py:430-455 | creating the container, cleaned up or not, builds, pulls and removes nothing |
| Provisioning.ForceRemovesFirst | benchmarks/swebench/harness/docker_build.py:415-416 | with force, the instance image's removal comes before anything else |
| Provisioning.CreateOutcomes | benchmarks/swebench/harness/docker_build.py:430-455 | a failed creation is cleaned up with no container and raised as BuildImageError with the creation's message; a successful one is created from a present image, detached, with `tail -f /dev/null`, the given user, the spec's platform and its `cap_add` (empty by default) |

## Left out

- Docker SDK I/O is not modelled. The daemon's answers come from an `Oracle`: the build stream, whether the daemon raised, pull and create outcomes. A response's `failure` field stands for an exception raised by `client.api.build` or while streaming.
- Loggers are modelled per call, and closing one clears every handler. In the source, `setup_logger` returns the process-wide logger named after the instance and the log file, and adds a new FileHandler to it on each call. `close_logger` removes handlers from `logger.handlers` while iterating over that same list, so with two or more handlers every second one stays open. The `prepare_image.log` logger that `build_instance_image` leaves open on error therefore gains a second handler when the same instance is built again, and the next `close_logger` leaves one of them open. The model's `Logger` has one open flag, so it does not capture this.
- `client.images.get` can raise exceptions other than `ImageNotFound`, at lines 163, 205, 213, 358, 370 and 421 of `benchmarks/swebench/harness/docker_build.py`. These are not modelled: `Client.ImageExists` always answers whether the image is present.
- Logging output is not modelled: info and error lines, formatters, stdout handlers, and the creation of the log directory. Only the log file's path, the open/closed state and the warnings are modelled.
- `setup_logger` is the `Logger` constructor. Its instance id and file mode are not modelled.
- `run_threadpool` and `max_workers` are modelled as a sequential pool (`Pool`, `InstancePool`) that records each task's image name as successful or failed. Concurrency, and the order in which a real pool reports results, are not modelled. `run_threadpool` is in `utils`, which is not part of this model.
- `ansi_escape`, `remove_image` and `cleanup_container` come from modules that are not part of this model. `ansi_escape` is an opaque function in the oracle. `remove_image` removes the image, whether present or not. `cleanup_container` is recorded in the trace.
- `get_test_specs_from_dataset` and `make_test_spec` are not part of this model. The tiers take a sequence of `TestSpec` values, so `namespace` and `tag` of `build_instance_images` do not appear.
- `TestSpec.get_instance_container_name(run_id)` and `DOCKER_USER` come from files that are not part of this model. `BuildContainer` takes the container name and the user as inputs.
- `BuildImageError.__str__` is not modelled. Rendering the log path needs the path constants, and `constants.py` is not part of this model. The build directory roots are modelled as the `Tier` of a `BuildDir`.
- An exception raised while writing a setup script or the Dockerfile (disk errors) is not modelled: writes always succeed.
- `build_container` for a local image calls `build_instance_image` directly, as the code does. It does not run the base and env tiers first, and it fails with BuildImageError when the env image is absent.
- A pull failure other than NotFound raises a plain Exception whose text names the spec's base image key rather than the image being pulled. `Provisioning.PullFailedMessage` keeps that text as written.
- The forced removal in `build_env_images` walks a Python set, whose order is not determined. `BuildEnvImages` returns the order it took, as a ghost value, and the contract holds for that order.
- `Registry.DirName`: only the absence of colons and the character content are proved. The name is not injective (`Registry.DirNameCollides`), so two keys can share a build directory.
- `DockerBuild.BuildInstanceImage`: when `build_image` fails, only the `BuildImageError` it raised is modelled, and that error points at `build_image.log`. Nothing further about the `prepare_image.log` logger is modelled, apart from it staying open.
