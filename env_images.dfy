/**
 * The environment tier: `get_env_configs_to_build` plans the env images the
 * registry lacks (after checking every base image), and `build_env_images`
 * removes the batch's env images when forced, runs the base tier, and builds
 * the plan through the worker pool.
 */
module EnvImages {
  import opened Wrappers
  import opened Registry
  import opened Dicts
  import opened BuildUnit
  import opened BaseImages

  /** The value `get_env_configs_to_build` stores per env key. */
  datatype EnvConfig = EnvConfig(setupScript: string, dockerfile: string, platform: string)

  function EnvKey(s: TestSpec): string { s.envImageKey }
  function EnvEntry(s: TestSpec): EnvConfig { EnvConfig(s.setupEnvScript, s.envDockerfile, s.platform) }

  function BaseMissingMessage(s: TestSpec): string
  {
    "Base image " + s.baseImageKey + " not found for " + s.envImageKey + "\n." + "Please build the base images first."
  }

  /** The loop of `get_env_configs_to_build`, from the dict `d` built so far. */
  function EnvConfigsFrom(d: Dict<EnvConfig>, specs: seq<TestSpec>, images: set<string>)
    : (r: Result<Dict<EnvConfig>, Error>)
    requires d.Valid()
    ensures r.Ok? ==> r.value.Valid()
    decreases |specs|
  {
    if |specs| == 0 then Ok(d)
    else
      var s := specs[0];
      if s.baseImageKey !in images then Err(Failure(BaseMissingMessage(s)))
      else EnvConfigsFrom(if s.envImageKey in images then d else d.Put(s.envImageKey, EnvEntry(s)), specs[1..], images)
  }

  function EnvConfigs(specs: seq<TestSpec>, images: set<string>): (r: Result<Dict<EnvConfig>, Error>)
    ensures r.Ok? ==> r.value.Valid()
  {
    EnvConfigsFrom(Empty(), specs, images)
  }

  /** The position of the first spec whose base image is absent, or the length. */
  function FirstMissingBase(specs: seq<TestSpec>, images: set<string>): (n: nat)
    ensures n <= |specs|
    ensures forall i | 0 <= i < n :: specs[i].baseImageKey in images
    ensures n < |specs| ==> specs[n].baseImageKey !in images
  {
    if |specs| == 0 then 0
    else if specs[0].baseImageKey !in images then 0
    else 1 + FirstMissingBase(specs[1..], images)
  }

  /** Planning fails exactly when some base image is absent, with the message
      naming the first such spec. */
  lemma {:induction false} EnvConfigsError(d: Dict<EnvConfig>, specs: seq<TestSpec>, images: set<string>)
    requires d.Valid()
    ensures var n := FirstMissingBase(specs, images);
      && (n < |specs| ==> EnvConfigsFrom(d, specs, images) == Err(Failure(BaseMissingMessage(specs[n]))))
      && (n == |specs| ==> EnvConfigsFrom(d, specs, images).Ok?)
    decreases |specs|
  {
    if |specs| > 0 && specs[0].baseImageKey in images {
      var s := specs[0];
      EnvConfigsError(if s.envImageKey in images then d else d.Put(s.envImageKey, EnvEntry(s)), specs[1..], images);
    }
  }

  /** The plan's keys are those of `d` and the env keys of the batch that the
      registry lacks. */
  lemma {:induction false} EnvConfigsKeys(d: Dict<EnvConfig>, specs: seq<TestSpec>, images: set<string>, k: string)
    requires d.Valid()
    requires EnvConfigsFrom(d, specs, images).Ok?
    ensures k in EnvConfigsFrom(d, specs, images).value.values <==>
      k in d.values || (k !in images && exists i | 0 <= i < |specs| :: specs[i].envImageKey == k)
    decreases |specs|
  {
    if |specs| > 0 {
      var s := specs[0];
      EnvConfigsKeys(if s.envImageKey in images then d else d.Put(s.envImageKey, EnvEntry(s)), specs[1..], images, k);
      if exists i | 0 <= i < |specs| :: specs[i].envImageKey == k {
        var i :| 0 <= i < |specs| && specs[i].envImageKey == k;
        if i > 0 { assert specs[1..][i - 1].envImageKey == k; }
      }
    }
  }

  lemma {:induction false} EnvConfigsKeeps(d: Dict<EnvConfig>, specs: seq<TestSpec>, images: set<string>, k: string)
    requires d.Valid() && k in d.values
    requires EnvConfigsFrom(d, specs, images).Ok?
    requires forall i | 0 <= i < |specs| :: specs[i].envImageKey != k
    ensures k in EnvConfigsFrom(d, specs, images).value.values
    ensures EnvConfigsFrom(d, specs, images).value.values[k] == d.values[k]
    decreases |specs|
  {
    if |specs| > 0 {
      var s := specs[0];
      assert forall i | 0 <= i < |specs[1..]| :: specs[1..][i] == specs[i + 1];
      EnvConfigsKeeps(if s.envImageKey in images then d else d.Put(s.envImageKey, EnvEntry(s)), specs[1..], images, k);
    }
  }

  /** A planned env key carries the setup script, Dockerfile and platform of
      the last spec with that key. */
  lemma {:induction false} EnvConfigsLastWins(d: Dict<EnvConfig>, specs: seq<TestSpec>, images: set<string>, i: int)
    requires d.Valid() && 0 <= i < |specs|
    requires EnvConfigsFrom(d, specs, images).Ok?
    requires specs[i].envImageKey !in images && LastWithKey(specs, EnvKey, i)
    ensures specs[i].envImageKey in EnvConfigsFrom(d, specs, images).value.values
    ensures EnvConfigsFrom(d, specs, images).value.values[specs[i].envImageKey] == EnvEntry(specs[i])
    decreases |specs|
  {
    var s := specs[0];
    var d1 := if s.envImageKey in images then d else d.Put(s.envImageKey, EnvEntry(s));
    assert forall j | 0 <= j < |specs[1..]| :: specs[1..][j] == specs[j + 1];
    if i == 0 {
      EnvConfigsKeeps(d1, specs[1..], images, s.envImageKey);
    } else {
      EnvConfigsLastWins(d1, specs[1..], images, i - 1);
    }
  }

  /** `get_env_configs_to_build` in full: it raises for the first spec whose
      base image is absent; otherwise its keys are exactly the batch's env keys
      that the registry lacks, each with the configuration of the last spec
      carrying it. */
  lemma EnvPlanSpec(specs: seq<TestSpec>, images: set<string>)
    ensures (exists i | 0 <= i < |specs| :: specs[i].baseImageKey !in images) <==> EnvConfigs(specs, images).Err?
    ensures EnvConfigs(specs, images).Err? ==>
      EnvConfigs(specs, images).error == Failure(BaseMissingMessage(specs[FirstMissingBase(specs, images)]))
    ensures EnvConfigs(specs, images).Ok? ==>
      && (forall k :: k in EnvConfigs(specs, images).value.values <==>
            k !in images && exists i | 0 <= i < |specs| :: specs[i].envImageKey == k)
      && (forall i | 0 <= i < |specs| && specs[i].envImageKey !in images && LastWithKey(specs, EnvKey, i) ::
            EnvConfigs(specs, images).value.values[specs[i].envImageKey] == EnvEntry(specs[i]))
  {
    EnvConfigsError(Empty(), specs, images);
    var n := FirstMissingBase(specs, images);
    if n < |specs| {
      assert specs[n].baseImageKey !in images;
    }
    if EnvConfigs(specs, images).Ok? {
      forall k ensures k in EnvConfigs(specs, images).value.values <==>
            k !in images && exists i | 0 <= i < |specs| :: specs[i].envImageKey == k
      {
        EnvConfigsKeys(Empty(), specs, images, k);
      }
      forall i | 0 <= i < |specs| && specs[i].envImageKey !in images && LastWithKey(specs, EnvKey, i)
        ensures EnvConfigs(specs, images).value.values[specs[i].envImageKey] == EnvEntry(specs[i])
      {
        EnvConfigsLastWins(Empty(), specs, images, i);
      }
    }
  }

  // ---- the worker pool ----

  /** The arguments of one `build_image` call handed to the pool. */
  datatype Task = Task(name: string, scripts: seq<(string, string)>, dockerfile: string, platform: string, dir: BuildDir)

  /** `ENV_IMAGE_BUILD_DIR / image_name.replace(":", "__")`. */
  function EnvDir(key: string): (d: BuildDir)
    ensures d.tier == EnvTier && ':' !in d.name
  {
    BuildDir(EnvTier, DirName(key))
  }

  function EnvTask(name: string, c: EnvConfig): Task
  {
    Task(name, [(SETUP_ENV_SCRIPT, c.setupScript)], c.dockerfile, c.platform, EnvDir(name))
  }

  /** `args_list`, one task per planned env image in the plan's order. */
  function EnvTasks(d: Dict<EnvConfig>): (tasks: seq<Task>)
    requires d.Valid()
    ensures |tasks| == |d.keys|
  {
    seq(|d.keys|, i requires 0 <= i < |d.keys| => EnvTask(d.keys[i], d.values[d.keys[i]]))
  }

  function TaskNames(tasks: seq<Task>): (names: seq<string>)
    ensures |names| == |tasks| && forall i | 0 <= i < |tasks| :: names[i] == tasks[i].name
  {
    seq(|tasks|, i requires 0 <= i < |tasks| => tasks[i].name)
  }

  function RunTask(w: World, o: Oracle, t: Task): (res: (World, Result<(), Error>))
  {
    BuildImageSpec(w, o, t.name, t.scripts, t.dockerfile, t.platform, t.dir, false)
  }

  /** `run_threadpool(build_image, args_list, max_workers)`, run one task after
      another: every task runs, and its failure is recorded, not raised. */
  function Pool(w: World, o: Oracle, tasks: seq<Task>): (res: (World, Partition))
    decreases |tasks|
  {
    if |tasks| == 0 then (w, Partition([], []))
    else
      var (w1, r) := RunTask(w, o, tasks[0]);
      if r.Ok? then After([tasks[0].name], [], Pool(w1, o, tasks[1..]))
      else After([], [tasks[0].name], Pool(w1, o, tasks[1..]))
  }

  /** The number of tasks that build `key`. */
  function TasksFor(tasks: seq<Task>, key: string): nat
  {
    if |tasks| == 0 then 0 else (if tasks[0].name == key then 1 else 0) + TasksFor(tasks[1..], key)
  }

  /** Every task is attempted exactly once and lands in exactly one of the two
      lists; each task issues one build, the pool removes nothing, and what was
      present stays present. */
  lemma PoolSpec(w: World, o: Oracle, tasks: seq<Task>, k: string)
    ensures var (w', p) := Pool(w, o, tasks);
      && multiset(p.successful) + multiset(p.failed) == multiset(TaskNames(tasks))
      && BuildsOf(w'.trace, k) == BuildsOf(w.trace, k) + TasksFor(tasks, k)
      && AllBuilds(w'.trace) == AllBuilds(w.trace) + |tasks|
      && RemovesOf(w'.trace, k) == RemovesOf(w.trace, k)
      && w.images <= w'.images
      && w.trace <= w'.trace
  {
    PoolPartition(w, o, tasks);
    PoolCounts(w, o, tasks, k);
    PoolGrows(w, o, tasks);
  }

  /** A helper for PoolSpec: the names of the tasks are split between the lists. */
  lemma {:induction false} PoolPartition(w: World, o: Oracle, tasks: seq<Task>)
    ensures var p := Pool(w, o, tasks).1;
      multiset(p.successful) + multiset(p.failed) == multiset(TaskNames(tasks))
    decreases |tasks|
  {
    if |tasks| > 0 {
      var t := tasks[0];
      var w1 := RunTask(w, o, t).0;
      PoolPartition(w1, o, tasks[1..]);
      assert TaskNames(tasks) == [t.name] + TaskNames(tasks[1..]);
    }
  }

  /** A helper for PoolSpec: one build per task, no removal. */
  lemma {:induction false} PoolCounts(w: World, o: Oracle, tasks: seq<Task>, k: string)
    ensures var w' := Pool(w, o, tasks).0;
      && BuildsOf(w'.trace, k) == BuildsOf(w.trace, k) + TasksFor(tasks, k)
      && AllBuilds(w'.trace) == AllBuilds(w.trace) + |tasks|
      && RemovesOf(w'.trace, k) == RemovesOf(w.trace, k)
    decreases |tasks|
  {
    if |tasks| > 0 {
      var t := tasks[0];
      var w1 := RunTask(w, o, t).0;
      assert Pool(w, o, tasks).0 == Pool(w1, o, tasks[1..]).0;
      BuildImageCounts(w, o, t.name, t.scripts, t.dockerfile, t.platform, t.dir, false, k);
      PoolCounts(w1, o, tasks[1..], k);
    }
  }

  /** A helper for PoolSpec: images are only added and the trace only grows. */
  lemma {:induction false} PoolGrows(w: World, o: Oracle, tasks: seq<Task>)
    ensures var w' := Pool(w, o, tasks).0;
      w.images <= w'.images && w.trace <= w'.trace
    decreases |tasks|
  {
    if |tasks| > 0 {
      var t := tasks[0];
      var w1 := RunTask(w, o, t).0;
      assert Pool(w, o, tasks).0 == Pool(w1, o, tasks[1..]).0;
      BuildImageEffect(w, o, t.name, t.scripts, t.dockerfile, t.platform, t.dir, false);
      PoolGrows(w1, o, tasks[1..]);
    }
  }

  /** A successful task's image is present once the pool is done. */
  lemma {:induction false} PoolSuccessPresent(w: World, o: Oracle, tasks: seq<Task>)
    ensures var (w', p) := Pool(w, o, tasks);
      forall n | n in p.successful :: n in w'.images
    decreases |tasks|
  {
    if |tasks| > 0 {
      var t := tasks[0];
      var w1 := RunTask(w, o, t).0;
      BuildImageEffect(w, o, t.name, t.scripts, t.dockerfile, t.platform, t.dir, false);
      PoolSuccessPresent(w1, o, tasks[1..]);
      PoolGrows(w1, o, tasks[1..]);
    }
  }

  /** The build request a task sends to the daemon. */
  function TaskRequest(t: Task): BuildRequest
  {
    BuildRequest(t.dir, t.name, t.platform, false)
  }

  /** The pool adds to the registry exactly the images it reports successful. */
  lemma {:induction false} PoolImages(w: World, o: Oracle, tasks: seq<Task>)
    ensures var (w', p) := Pool(w, o, tasks);
      w'.images == w.images + Elems(p.successful)
    decreases |tasks|
  {
    if |tasks| > 0 {
      var t := tasks[0];
      var (w1, r) := RunTask(w, o, t);
      BuildImageEffect(w, o, t.name, t.scripts, t.dockerfile, t.platform, t.dir, false);
      PoolImages(w1, o, tasks[1..]);
      var p1 := Pool(w1, o, tasks[1..]).1;
      assert Elems([t.name] + p1.successful) == {t.name} + Elems(p1.successful);
      assert Elems([] + p1.successful) == Elems(p1.successful);
    }
  }

  /** With distinct task names, a task is reported successful exactly when the
      daemon built its image, and failed exactly when it did not. */
  lemma {:induction false} PoolReports(w: World, o: Oracle, tasks: seq<Task>)
    requires NoDup(TaskNames(tasks))
    ensures var p := Pool(w, o, tasks).1;
      forall i | 0 <= i < |tasks| ::
        && (tasks[i].name in p.successful <==> Succeeds(o.build(TaskRequest(tasks[i]))))
        && (tasks[i].name in p.failed <==> !Succeeds(o.build(TaskRequest(tasks[i]))))
    decreases |tasks|
  {
    if |tasks| > 0 {
      var t := tasks[0];
      var tail := tasks[1..];
      var w1 := RunTask(w, o, t).0;
      BuildImageEffect(w, o, t.name, t.scripts, t.dockerfile, t.platform, t.dir, false);
      assert TaskNames(tail) == TaskNames(tasks)[1..];
      PoolReports(w1, o, tail);
      PoolPartition(w1, o, tail);
      var p1 := Pool(w1, o, tail).1;
      assert t.name !in TaskNames(tail) by {
        forall j | 0 <= j < |tail| ensures TaskNames(tail)[j] != t.name {
          assert TaskNames(tasks)[0] != TaskNames(tasks)[j + 1];
        }
      }
      assert t.name !in p1.successful && t.name !in p1.failed by {
        assert multiset(TaskNames(tail))[t.name] == 0;
      }
      forall i | 1 <= i < |tasks|
        ensures tasks[i].name != t.name && tasks[i] == tail[i - 1]
      {
        assert TaskNames(tasks)[0] != TaskNames(tasks)[i];
      }
    }
  }

  /** Over distinct tasks whose images are all absent beforehand (the env
      plan's case), a name is reported successful exactly when its image is
      present afterwards, and failed exactly when it is still absent. */
  lemma PoolOutcome(w: World, o: Oracle, tasks: seq<Task>)
    requires NoDup(TaskNames(tasks))
    requires forall n | n in TaskNames(tasks) :: n !in w.images
    ensures var (w', p) := Pool(w, o, tasks);
      && (forall n :: n in p.successful <==> n in TaskNames(tasks) && n in w'.images)
      && (forall n :: n in p.failed <==> n in TaskNames(tasks) && n !in w'.images)
  {
    var (w', p) := Pool(w, o, tasks);
    PoolPartition(w, o, tasks);
    PoolImages(w, o, tasks);
    PartitionByImages(TaskNames(tasks), w.images, w'.images, p);
  }

  // ---- the whole tier ----

  /** `{x.env_image_key for x in test_specs}`. */
  function EnvKeys(specs: seq<TestSpec>): set<string>
  {
    set s | s in specs :: s.envImageKey
  }

  /** The forced removal at the start of `build_env_images`, in the order the
      set happens to be iterated. */
  function ForceRemoveEnv(w: World, force: bool, order: seq<string>): (w': World)
  {
    if force then RemoveEach(w, order) else w
  }

  /** `build_env_images(client, dataset, force_rebuild, max_workers)`, with the
      forced removals taken in the order `order`. */
  function EnvTierRun(w: World, o: Oracle, specs: seq<TestSpec>, force: bool, order: seq<string>)
    : (res: (World, Result<Partition, Error>))
  {
    var w1 := ForceRemoveEnv(w, force, order);
    var (w2, rb) := BuildBaseImagesSpec(w1, o, specs, force);
    if rb.Err? then (w2, Err(rb.error))
    else
      var configs := EnvConfigs(specs, w2.images);
      if configs.Err? then (w2, Err(configs.error))
      else if |configs.value.keys| == 0 then (w2, Ok(Partition([], [])))
      else
        var (w3, p) := Pool(w2, o, EnvTasks(configs.value));
        (w3, Ok(p))
  }

  /** Forced rebuild removes every env image of the batch, each once, before
      the base tier starts. */
  lemma EnvForceRemoval(w: World, specs: seq<TestSpec>, order: seq<string>, k: string)
    requires Enumerates(order, EnvKeys(specs))
    ensures var w1 := ForceRemoveEnv(w, true, order);
      && w1.images == w.images - EnvKeys(specs)
      && w1.trace == w.trace + RemoveOps(order)
      && RemovesOf(w1.trace, k) == RemovesOf(w.trace, k) + (if k in EnvKeys(specs) then 1 else 0)
      && AllBuilds(w1.trace) == AllBuilds(w.trace)
  {
    RemoveEachEffect(w, order);
    assert (set x | x in order) == EnvKeys(specs);
    RemoveOpsCount(order, k);
    CountsAppend(w.trace, RemoveOps(order), k);
  }

  lemma {:induction false} RemoveOpsCount(order: seq<string>, k: string)
    requires NoDup(order)
    ensures RemovesOf(RemoveOps(order), k) == (if k in order then 1 else 0)
    ensures AllBuilds(RemoveOps(order)) == 0
    decreases |order|
  {
    if |order| > 0 {
      var init := order[..|order| - 1];
      assert NoDup(init);
      RemoveOpsCount(init, k);
      CountsAppend(RemoveOps(init), [Remove(order[|order| - 1])], k);
      CountsSingle(Remove(order[|order| - 1]), k);
      assert order == init + [order[|order| - 1]];
      assert k in order <==> k in init || k == order[|order| - 1];
    }
  }

  /** When every base and env image of the batch is present, the plan is empty. */
  lemma EnvPlanEmpty(specs: seq<TestSpec>, images: set<string>)
    requires BaseKeys(specs) <= images && EnvKeys(specs) <= images
    ensures EnvConfigs(specs, images).Ok? && |EnvConfigs(specs, images).value.keys| == 0
  {
    assert forall i | 0 <= i < |specs| :: specs[i].baseImageKey in BaseKeys(specs);
    assert forall i | 0 <= i < |specs| :: specs[i].envImageKey in EnvKeys(specs);
    EnvConfigsError(Empty(), specs, images);
    var d := EnvConfigs(specs, images).value;
    if |d.keys| > 0 {
      EnvConfigsKeys(Empty(), specs, images, d.keys[0]);
    }
  }

  /** Without force, when every env image of the batch is already present and
      the base tier succeeds, the env tier builds nothing and returns two empty
      lists. */
  lemma EnvNothingToBuild(w: World, o: Oracle, specs: seq<TestSpec>)
    requires BuildBaseImagesSpec(w, o, specs, false).1.Ok?
    requires EnvKeys(specs) <= w.images
    ensures EnvTierRun(w, o, specs, false, []) == (BuildBaseImagesSpec(w, o, specs, false).0, Ok(Partition([], [])))
  {
    var wb := BuildBaseImagesSpec(w, o, specs, false).0;
    BaseTierCounts(w, o, specs, false, "");
    EnvPlanEmpty(specs, wb.images);
  }

  /** When the env tier gets as far as the pool, it builds each planned env
      image exactly once, with the single setup script `setup_env.sh`, and
      every planned image lands in exactly one of the two lists. */
  lemma EnvPoolSpec(w: World, o: Oracle, d: Dict<EnvConfig>, k: string)
    requires d.Valid()
    ensures var (w', p) := Pool(w, o, EnvTasks(d));
      && multiset(p.successful) + multiset(p.failed) == multiset(d.keys)
      && BuildsOf(w'.trace, k) == BuildsOf(w.trace, k) + (if k in d.values then 1 else 0)
      && RemovesOf(w'.trace, k) == RemovesOf(w.trace, k)
    ensures forall i | 0 <= i < |d.keys| ::
      EnvTasks(d)[i].name == d.keys[i] && EnvTasks(d)[i].scripts == [(SETUP_ENV_SCRIPT, d.values[d.keys[i]].setupScript)]
  {
    var tasks := EnvTasks(d);
    PoolSpec(w, o, tasks, k);
    assert TaskNames(tasks) == d.keys;
    TasksForDistinct(tasks, k);
  }

  /** What the env tier reports once planning succeeded, checked against the
      registry it leaves: an env image is reported failed exactly when the
      batch names it and it is absent afterwards, and one reported successful
      is present. */
  lemma EnvPlanReports(w: World, o: Oracle, specs: seq<TestSpec>)
    requires EnvConfigs(specs, w.images).Ok?
    ensures var d := EnvConfigs(specs, w.images).value;
      var (w', p) := if |d.keys| == 0 then (w, Partition([], [])) else Pool(w, o, EnvTasks(d));
      && (forall n :: n in p.failed <==> n in EnvKeys(specs) && n !in w'.images)
      && (forall n | n in p.successful :: n in EnvKeys(specs) && n in w'.images)
  {
    var d := EnvConfigs(specs, w.images).value;
    EnvPlanSpec(specs, w.images);
    forall n ensures n in EnvKeys(specs) <==> exists i | 0 <= i < |specs| :: specs[i].envImageKey == n {
      if n in EnvKeys(specs) {
        var s :| s in specs && s.envImageKey == n;
        var i :| 0 <= i < |specs| && specs[i] == s;
      }
    }
    if |d.keys| > 0 {
      var tasks := EnvTasks(d);
      assert TaskNames(tasks) == d.keys;
      PoolOutcome(w, o, tasks);
      PoolGrows(w, o, tasks);
    }
  }

  /** `build_env_images` in terms of the registry it leaves: when it returns,
      its failed list holds exactly the batch's env images that are absent,
      and every image in its successful list is present. */
  lemma EnvTierReports(w: World, o: Oracle, specs: seq<TestSpec>, force: bool, order: seq<string>)
    requires EnvTierRun(w, o, specs, force, order).1.Ok?
    ensures var (w', r) := EnvTierRun(w, o, specs, force, order);
      && (forall n :: n in r.value.failed <==> n in EnvKeys(specs) && n !in w'.images)
      && (forall n | n in r.value.successful :: n in EnvKeys(specs) && n in w'.images)
  {
    var w1 := ForceRemoveEnv(w, force, order);
    var w2 := BuildBaseImagesSpec(w1, o, specs, force).0;
    EnvPlanReports(w2, o, specs);
  }

  /** When every base and env image of the batch is present, the env tier
      without force issues no operation and reports nothing. */
  lemma EnvTierAllPresent(w: World, o: Oracle, specs: seq<TestSpec>)
    requires BaseKeys(specs) <= w.images && EnvKeys(specs) <= w.images
    ensures EnvTierRun(w, o, specs, false, []) == (w, Ok(Partition([], [])))
  {
    var items := BasePlan(specs).Items();
    BasePlanKeys(specs);
    forall i | 0 <= i < |items| ensures items[i].0 in w.images {
      assert ItemKeys(items)[i] == items[i].0;
    }
    BaseRunAllPresent(w, o, items);
    EnvPlanEmpty(specs, w.images);
  }

  /** A returning env tier leaves every base image of the batch present. */
  lemma EnvTierBasePresent(w: World, o: Oracle, specs: seq<TestSpec>, force: bool, order: seq<string>)
    requires EnvTierRun(w, o, specs, force, order).1.Ok?
    ensures BaseKeys(specs) <= EnvTierRun(w, o, specs, force, order).0.images
  {
    var w1 := ForceRemoveEnv(w, force, order);
    BaseTierCounts(w1, o, specs, force, "");
    var wb := BuildBaseImagesSpec(w1, o, specs, force).0;
    var configs := EnvConfigs(specs, wb.images);
    if |configs.value.keys| > 0 {
      PoolGrows(wb, o, EnvTasks(configs.value));
    }
  }

  /** Idempotence: after an env tier that reported no failure, running it
      again without force issues no operation and reports nothing. */
  lemma EnvTierIdempotent(w: World, o: Oracle, specs: seq<TestSpec>, force: bool, order: seq<string>)
    requires EnvTierRun(w, o, specs, force, order).1.Ok?
    requires EnvTierRun(w, o, specs, force, order).1.value.failed == []
    ensures var w' := EnvTierRun(w, o, specs, force, order).0;
      EnvTierRun(w', o, specs, false, []) == (w', Ok(Partition([], [])))
  {
    EnvTierBasePresent(w, o, specs, force, order);
    EnvTierReports(w, o, specs, force, order);
    EnvTierAllPresent(EnvTierRun(w, o, specs, force, order).0, o, specs);
  }

  lemma {:induction false} TasksForDistinct(tasks: seq<Task>, k: string)
    requires NoDup(TaskNames(tasks))
    ensures TasksFor(tasks, k) == if k in TaskNames(tasks) then 1 else 0
    decreases |tasks|
  {
    if |tasks| > 0 {
      assert TaskNames(tasks[1..]) == TaskNames(tasks)[1..];
      TasksForDistinct(tasks[1..], k);
      assert k in TaskNames(tasks) <==> k == tasks[0].name || k in TaskNames(tasks[1..]);
      if k == tasks[0].name { assert TaskNames(tasks)[0] == k; }
    }
  }
}
