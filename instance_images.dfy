/**
 * The instance tier: `build_instance_image` (check the env image, build the
 * instance image only when absent) and `build_instance_images` (forced
 * removal, the env tier, dropping specs whose env image failed, the pool).
 */
module InstanceImages {
  import opened Wrappers
  import opened Registry
  import opened BuildUnit
  import opened BaseImages
  import opened EnvImages

  /** `INSTANCE_IMAGE_BUILD_DIR / instance_image_key.replace(":", "__")`. */
  function InstanceDir(key: string): (d: BuildDir)
    ensures d.tier == InstanceTier && ':' !in d.name
  {
    BuildDir(InstanceTier, DirName(key))
  }

  /** The log file of the logger `build_instance_image` creates for itself. */
  function PrepareLog(spec: TestSpec): FilePath
  {
    FilePath(InstanceDir(spec.instanceImageKey), PREPARE_IMAGE_LOG)
  }

  function EnvMissingMessage(spec: TestSpec): string
  {
    "Environment image " + spec.envImageKey + " not found for " + spec.instanceId
  }

  /** `build_instance_image(test_spec, client, logger, nocache)`, where `logPath`
      is the log file of the logger in use. */
  function InstanceImageSpec(w: World, o: Oracle, spec: TestSpec, logPath: FilePath, nocache: bool)
    : (res: (World, Result<(), Error>))
  {
    if spec.envImageKey !in w.images then
      (w, Err(BuildImageError(spec.instanceId, EnvMissingMessage(spec), logPath, None)))
    else if spec.instanceImageKey in w.images then (w, Ok(()))
    else BuildImageSpec(w, o, spec.instanceImageKey, [(SETUP_REPO_SCRIPT, spec.installRepoScript)],
                        spec.instanceDockerfile, spec.platform, InstanceDir(spec.instanceImageKey), nocache)
  }

  /** The three outcomes: a missing env image raises BuildImageError and changes
      nothing; a present instance image is left alone; otherwise the only
      operations are writing `setup_repo.sh` and the Dockerfile and one build
      of the instance image, which is present afterwards exactly when the
      build succeeded. */
  lemma InstanceImageOutcomes(w: World, o: Oracle, spec: TestSpec, logPath: FilePath, nocache: bool)
    ensures var (w', r) := InstanceImageSpec(w, o, spec, logPath, nocache);
      var dir := InstanceDir(spec.instanceImageKey);
      var req := BuildRequest(dir, spec.instanceImageKey, spec.platform, nocache);
      && (spec.envImageKey !in w.images ==>
            w' == w && r == Err(BuildImageError(spec.instanceId, EnvMissingMessage(spec), logPath, None)))
      && (spec.envImageKey in w.images && spec.instanceImageKey in w.images ==> w' == w && r == Ok(()))
      && (spec.envImageKey in w.images && spec.instanceImageKey !in w.images ==>
            && w'.trace == w.trace + [Write(FilePath(dir, SETUP_REPO_SCRIPT), spec.installRepoScript),
                                      Write(FilePath(dir, DOCKERFILE), spec.instanceDockerfile), Build(req)]
            && (r.Ok? <==> Succeeds(o.build(req)))
            && (r.Ok? <==> spec.instanceImageKey in w'.images))
  {
    var dir := InstanceDir(spec.instanceImageKey);
    var scripts := [(SETUP_REPO_SCRIPT, spec.installRepoScript)];
    BuildImageEffect(w, o, spec.instanceImageKey, scripts, spec.instanceDockerfile, spec.platform, dir, nocache);
    assert ScriptWrites(dir, scripts) == [Write(FilePath(dir, SETUP_REPO_SCRIPT), spec.installRepoScript)];
  }

  /** One instance image is built at most once, and nothing is removed. */
  lemma InstanceImageCounts(w: World, o: Oracle, spec: TestSpec, logPath: FilePath, nocache: bool, k: string)
    ensures var (w', r) := InstanceImageSpec(w, o, spec, logPath, nocache);
      && BuildsOf(w.trace, k) <= BuildsOf(w'.trace, k) <= BuildsOf(w.trace, k) + (if k == spec.instanceImageKey then 1 else 0)
      && RemovesOf(w'.trace, k) == RemovesOf(w.trace, k)
      && PullsOf(w'.trace, k) == PullsOf(w.trace, k)
      && (r.Ok? ==> spec.instanceImageKey in w'.images)
      && (r.Ok? ==> w'.images == w.images + {spec.instanceImageKey})
      && (r.Err? ==> w'.images == w.images)
      && w.images <= w'.images
  {
    InstanceImageOutcomes(w, o, spec, logPath, nocache);
    if spec.envImageKey in w.images && spec.instanceImageKey !in w.images {
      BuildImageCounts(w, o, spec.instanceImageKey, [(SETUP_REPO_SCRIPT, spec.installRepoScript)],
                       spec.instanceDockerfile, spec.platform, InstanceDir(spec.instanceImageKey), nocache, k);
      BuildImageEffect(w, o, spec.instanceImageKey, [(SETUP_REPO_SCRIPT, spec.installRepoScript)],
                       spec.instanceDockerfile, spec.platform, InstanceDir(spec.instanceImageKey), nocache);
    }
  }

  /** `[spec for spec in test_specs if spec.env_image_key not in env_failed]`. */
  function Runnable(specs: seq<TestSpec>, failed: seq<string>): seq<TestSpec>
  {
    if |specs| == 0 then []
    else (if specs[0].envImageKey in failed then [] else [specs[0]]) + Runnable(specs[1..], failed)
  }

  /** A spec is kept exactly when its env image did not fail. */
  lemma {:induction false} RunnableMembers(specs: seq<TestSpec>, failed: seq<string>, s: TestSpec)
    ensures s in Runnable(specs, failed) <==> s in specs && s.envImageKey !in failed
  {
    if |specs| > 0 {
      RunnableMembers(specs[1..], failed, s);
      assert s in specs <==> s == specs[0] || s in specs[1..];
    }
  }

  /** The kept specs keep their original order. */
  lemma {:induction false} RunnableAppend(a: seq<TestSpec>, b: seq<TestSpec>, failed: seq<string>)
    ensures Runnable(a + b, failed) == Runnable(a, failed) + Runnable(b, failed)
  {
    if |a| == 0 {
      assert a + b == b;
    } else {
      assert (a + b)[1..] == a[1..] + b;
      RunnableAppend(a[1..], b, failed);
    }
  }

  /** With no failure nothing is dropped, so the `len(env_failed) > 0` guard
      does not change the outcome. */
  lemma {:induction false} RunnableNoFailure(specs: seq<TestSpec>)
    ensures Runnable(specs, []) == specs
  {
    if |specs| > 0 {
      RunnableNoFailure(specs[1..]);
      assert specs == [specs[0]] + specs[1..];
    }
  }

  function InstanceKeys(specs: seq<TestSpec>): (ks: seq<string>)
    ensures |ks| == |specs| && forall i | 0 <= i < |specs| :: ks[i] == specs[i].instanceImageKey
  {
    seq(|specs|, i requires 0 <= i < |specs| => specs[i].instanceImageKey)
  }

  /** `run_threadpool(build_instance_image, payloads, max_workers)`, one spec
      after another, each with a fresh logger of its own. */
  function InstancePool(w: World, o: Oracle, specs: seq<TestSpec>): (res: (World, Partition))
    decreases |specs|
  {
    if |specs| == 0 then (w, Partition([], []))
    else
      var s := specs[0];
      var (w1, r) := InstanceImageSpec(w, o, s, PrepareLog(s), false);
      if r.Ok? then After([s.instanceImageKey], [], InstancePool(w1, o, specs[1..]))
      else After([], [s.instanceImageKey], InstancePool(w1, o, specs[1..]))
  }

  /** The number of specs whose instance image is `key`. */
  function SpecsFor(specs: seq<TestSpec>, key: string): nat
  {
    if |specs| == 0 then 0 else (if specs[0].instanceImageKey == key then 1 else 0) + SpecsFor(specs[1..], key)
  }

  /** Every spec handed to the pool is attempted and lands in exactly one
      list; an image is built at most once per spec naming it, nothing is
      removed, and what was present stays present. */
  lemma InstancePoolSpec(w: World, o: Oracle, specs: seq<TestSpec>, k: string)
    ensures var (w', p) := InstancePool(w, o, specs);
      && multiset(p.successful) + multiset(p.failed) == multiset(InstanceKeys(specs))
      && BuildsOf(w.trace, k) <= BuildsOf(w'.trace, k) <= BuildsOf(w.trace, k) + SpecsFor(specs, k)
      && RemovesOf(w'.trace, k) == RemovesOf(w.trace, k)
      && w.images <= w'.images
  {
    InstancePoolPartition(w, o, specs);
    InstancePoolCounts(w, o, specs, k);
  }

  /** A helper for InstancePoolSpec: the instance keys are split between the lists. */
  lemma {:induction false} InstancePoolPartition(w: World, o: Oracle, specs: seq<TestSpec>)
    ensures var p := InstancePool(w, o, specs).1;
      multiset(p.successful) + multiset(p.failed) == multiset(InstanceKeys(specs))
    decreases |specs|
  {
    if |specs| > 0 {
      var s := specs[0];
      var w1 := InstanceImageSpec(w, o, s, PrepareLog(s), false).0;
      InstancePoolPartition(w1, o, specs[1..]);
      assert InstanceKeys(specs) == [s.instanceImageKey] + InstanceKeys(specs[1..]);
    }
  }

  /** A helper for InstancePoolSpec: builds per key, no removal, images only added. */
  lemma {:induction false} InstancePoolCounts(w: World, o: Oracle, specs: seq<TestSpec>, k: string)
    ensures var w' := InstancePool(w, o, specs).0;
      && BuildsOf(w.trace, k) <= BuildsOf(w'.trace, k) <= BuildsOf(w.trace, k) + SpecsFor(specs, k)
      && RemovesOf(w'.trace, k) == RemovesOf(w.trace, k)
      && w.images <= w'.images
    decreases |specs|
  {
    if |specs| > 0 {
      var s := specs[0];
      var w1 := InstanceImageSpec(w, o, s, PrepareLog(s), false).0;
      assert InstancePool(w, o, specs).0 == InstancePool(w1, o, specs[1..]).0;
      InstanceImageCounts(w, o, s, PrepareLog(s), false, k);
      InstancePoolCounts(w1, o, specs[1..], k);
    }
  }

  /** The pool adds to the registry exactly the images it reports successful,
      so every reported success is present afterwards. */
  lemma {:induction false} InstancePoolImages(w: World, o: Oracle, specs: seq<TestSpec>)
    ensures var (w', p) := InstancePool(w, o, specs);
      && w'.images == w.images + Elems(p.successful)
      && (forall n | n in p.successful :: n in w'.images)
    decreases |specs|
  {
    if |specs| > 0 {
      var s := specs[0];
      var w1 := InstanceImageSpec(w, o, s, PrepareLog(s), false).0;
      InstanceImageCounts(w, o, s, PrepareLog(s), false, s.instanceImageKey);
      InstancePoolImages(w1, o, specs[1..]);
      var p1 := InstancePool(w1, o, specs[1..]).1;
      assert Elems([s.instanceImageKey] + p1.successful) == {s.instanceImageKey} + Elems(p1.successful);
      assert Elems([] + p1.successful) == Elems(p1.successful);
    }
  }

  /** Over specs with distinct instance images, all absent beforehand, an
      image is reported successful exactly when it is present afterwards, and
      failed exactly when it is still absent. */
  lemma InstancePoolOutcome(w: World, o: Oracle, specs: seq<TestSpec>)
    requires NoDup(InstanceKeys(specs))
    requires forall n | n in InstanceKeys(specs) :: n !in w.images
    ensures var (w', p) := InstancePool(w, o, specs);
      && (forall n :: n in p.successful <==> n in InstanceKeys(specs) && n in w'.images)
      && (forall n :: n in p.failed <==> n in InstanceKeys(specs) && n !in w'.images)
  {
    var (w', p) := InstancePool(w, o, specs);
    InstancePoolPartition(w, o, specs);
    InstancePoolImages(w, o, specs);
    PartitionByImages(InstanceKeys(specs), w.images, w'.images, p);
  }

  /** When every spec's env image is present and its instance images are
      distinct, an instance image is reported successful exactly when it is
      present afterwards, and failed exactly when it is absent, whether or not
      it was present beforehand. */
  lemma {:induction false} InstancePoolReports(w: World, o: Oracle, specs: seq<TestSpec>)
    requires NoDup(InstanceKeys(specs))
    requires forall s | s in specs :: s.envImageKey in w.images
    ensures var (w', p) := InstancePool(w, o, specs);
      ReportedByPresence(InstanceKeys(specs), w'.images, p)
    decreases |specs|
  {
    if |specs| > 0 {
      var s := specs[0];
      var tail := specs[1..];
      var k := s.instanceImageKey;
      var (w1, r) := InstanceImageSpec(w, o, s, PrepareLog(s), false);
      InstanceStepPresent(w, o, s);
      InstancePoolCons(w, o, specs);
      assert InstanceKeys(specs) == [k] + InstanceKeys(tail);
      assert InstanceKeys(tail) == InstanceKeys(specs)[1..];
      assert NoDup(InstanceKeys(tail));
      assert forall t | t in tail :: t.envImageKey in w1.images by {
        assert forall t | t in tail :: t in specs;
      }
      InstancePoolReports(w1, o, tail);
      InstancePoolImages(w1, o, tail);
      assert k !in InstanceKeys(tail) by {
        forall j | 0 <= j < |tail| ensures InstanceKeys(tail)[j] != k {
          assert InstanceKeys(specs)[0] != InstanceKeys(specs)[j + 1];
        }
      }
      var (w', p1) := InstancePool(w1, o, tail);
      ReportsCons(k, InstanceKeys(tail), w1.images, w'.images, r.Ok?, p1);
    }
  }

  /** A helper for InstancePoolReports: with its env image present, one spec
      succeeds exactly when its instance image is present after the step. */
  lemma InstanceStepPresent(w: World, o: Oracle, s: TestSpec)
    requires s.envImageKey in w.images
    ensures var (w1, r) := InstanceImageSpec(w, o, s, PrepareLog(s), false);
      && (r.Ok? <==> s.instanceImageKey in w1.images)
      && w.images <= w1.images
  {
    InstanceImageCounts(w, o, s, PrepareLog(s), false, s.instanceImageKey);
  }

  /** A helper for InstancePoolReports: the pool's first step, unfolded. */
  lemma InstancePoolCons(w: World, o: Oracle, specs: seq<TestSpec>)
    requires |specs| > 0
    ensures var s := specs[0];
      var (w1, r) := InstanceImageSpec(w, o, s, PrepareLog(s), false);
      var (w', p1) := InstancePool(w1, o, specs[1..]);
      InstancePool(w, o, specs) == if r.Ok? then (w', Partition([s.instanceImageKey] + p1.successful, p1.failed))
                                   else (w', Partition(p1.successful, [s.instanceImageKey] + p1.failed))
  {
    var p1 := InstancePool(InstanceImageSpec(w, o, specs[0], PrepareLog(specs[0]), false).0, o, specs[1..]).1;
    assert [] + p1.successful == p1.successful;
    assert [] + p1.failed == p1.failed;
  }

  /** When every spec's env and instance images are present, the pool issues
      no operation and reports every instance image as successful. */
  lemma {:induction false} InstancePoolAllPresent(w: World, o: Oracle, specs: seq<TestSpec>)
    requires forall s | s in specs :: s.envImageKey in w.images && s.instanceImageKey in w.images
    ensures InstancePool(w, o, specs) == (w, Partition(InstanceKeys(specs), []))
    decreases |specs|
  {
    if |specs| > 0 {
      assert specs[0] in specs;
      assert forall s | s in specs[1..] :: s in specs;
      InstancePoolAllPresent(w, o, specs[1..]);
      assert InstanceKeys(specs) == [specs[0].instanceImageKey] + InstanceKeys(specs[1..]);
      var none: seq<string> := [];
      assert none + none == none;
    }
  }

  lemma {:induction false} SpecsForAbsent(specs: seq<TestSpec>, key: string)
    requires forall s | s in specs :: s.instanceImageKey != key
    ensures SpecsFor(specs, key) == 0
  {
    if |specs| > 0 {
      assert forall s | s in specs[1..] :: s in specs;
      SpecsForAbsent(specs[1..], key);
    }
  }

  function ForceRemoveInstances(w: World, force: bool, specs: seq<TestSpec>): (w': World)
  {
    if force then RemoveEach(w, InstanceKeys(specs)) else w
  }

  /** `build_instance_images(client, dataset, force_rebuild, max_workers)`, with
      the env tier's forced removals taken in the order `order`. */
  function InstanceTierRun(w: World, o: Oracle, specs: seq<TestSpec>, force: bool, order: seq<string>)
    : (res: (World, Result<Partition, Error>))
  {
    var w1 := ForceRemoveInstances(w, force, specs);
    var (w2, re) := EnvTierRun(w1, o, specs, force, order);
    if re.Err? then (w2, Err(re.error))
    else
      var runnable := if |re.value.failed| > 0 then Runnable(specs, re.value.failed) else specs;
      var (w3, p) := InstancePool(w2, o, runnable);
      (w3, Ok(p))
  }

  /** Forced rebuild removes every spec's instance image, in the batch's order,
      before the env tier starts. */
  lemma InstanceForceRemoval(w: World, specs: seq<TestSpec>)
    ensures ForceRemoveInstances(w, true, specs).images == w.images - (set s | s in specs :: s.instanceImageKey)
    ensures ForceRemoveInstances(w, true, specs).trace == w.trace + RemoveOps(InstanceKeys(specs))
  {
    RemoveEachEffect(w, InstanceKeys(specs));
    assert (set k | k in InstanceKeys(specs)) == (set s | s in specs :: s.instanceImageKey) by {
      forall k | k in InstanceKeys(specs) ensures k in (set s | s in specs :: s.instanceImageKey) {
        var i :| 0 <= i < |specs| && InstanceKeys(specs)[i] == k;
        assert specs[i] in specs;
      }
    }
  }

  /** Skip propagation: once the env tier has returned its failed list, the
      instance tier hands to the pool exactly the specs whose env image did not
      fail; each of them ends up in exactly one of the returned lists; and an
      image that no such spec names is not built by the instance tier. */
  lemma InstanceTierSkipsFailed(w: World, o: Oracle, specs: seq<TestSpec>, force: bool, order: seq<string>, k: string)
    requires EnvTierRun(ForceRemoveInstances(w, force, specs), o, specs, force, order).1.Ok?
    ensures var (w2, re) := EnvTierRun(ForceRemoveInstances(w, force, specs), o, specs, force, order);
      var (w3, r) := InstanceTierRun(w, o, specs, force, order);
      var kept := Runnable(specs, re.value.failed);
      && r.Ok?
      && multiset(r.value.successful) + multiset(r.value.failed) == multiset(InstanceKeys(kept))
      && (forall s :: s in kept <==> s in specs && s.envImageKey !in re.value.failed)
      && ((forall s | s in specs && s.envImageKey !in re.value.failed :: s.instanceImageKey != k) ==>
            BuildsOf(w3.trace, k) == BuildsOf(w2.trace, k))
  {
    var (w2, re) := EnvTierRun(ForceRemoveInstances(w, force, specs), o, specs, force, order);
    var kept := Runnable(specs, re.value.failed);
    InstanceTierPool(w, o, specs, force, order);
    InstancePoolSpec(w2, o, kept, k);
    forall s ensures s in kept <==> s in specs && s.envImageKey !in re.value.failed {
      RunnableMembers(specs, re.value.failed, s);
    }
    if forall s | s in specs && s.envImageKey !in re.value.failed :: s.instanceImageKey != k {
      SpecsForAbsent(kept, k);
    }
  }

  /** A helper for InstanceTierSkipsFailed: past a successful env tier, the
      instance tier is the pool over the kept specs. */
  lemma InstanceTierPool(w: World, o: Oracle, specs: seq<TestSpec>, force: bool, order: seq<string>)
    requires EnvTierRun(ForceRemoveInstances(w, force, specs), o, specs, force, order).1.Ok?
    ensures var (w2, re) := EnvTierRun(ForceRemoveInstances(w, force, specs), o, specs, force, order);
      var (w3, p) := InstancePool(w2, o, Runnable(specs, re.value.failed));
      InstanceTierRun(w, o, specs, force, order) == (w3, Ok(p))
  {
    var re := EnvTierRun(ForceRemoveInstances(w, force, specs), o, specs, force, order).1;
    if |re.value.failed| == 0 {
      RunnableNoFailure(specs);
    }
  }

  /** Dropping specs keeps the instance images distinct. */
  lemma {:induction false} RunnableNoDup(specs: seq<TestSpec>, failed: seq<string>)
    requires NoDup(InstanceKeys(specs))
    ensures NoDup(InstanceKeys(Runnable(specs, failed)))
    decreases |specs|
  {
    if |specs| > 0 {
      var tail := specs[1..];
      var k := specs[0].instanceImageKey;
      var rest := Runnable(tail, failed);
      assert InstanceKeys(tail) == InstanceKeys(specs)[1..];
      RunnableNoDup(tail, failed);
      if specs[0].envImageKey !in failed {
        forall j | 0 <= j < |rest| ensures rest[j].instanceImageKey != k {
          RunnableMembers(tail, failed, rest[j]);
          var i :| 0 <= i < |tail| && tail[i] == rest[j];
          assert InstanceKeys(specs)[0] != InstanceKeys(specs)[i + 1];
        }
        var ks := InstanceKeys(Runnable(specs, failed));
        assert Runnable(specs, failed) == [specs[0]] + rest;
        forall a, b | 0 <= a < b < |ks| ensures ks[a] != ks[b] {
          if a > 0 {
            assert ks[a] == InstanceKeys(rest)[a - 1];
          }
          assert ks[b] == rest[b - 1].instanceImageKey;
        }
      } else {
        assert Runnable(specs, failed) == rest;
      }
    }
  }

  /** `build_instance_images` in terms of the registry it leaves: once the env
      tier returns, and the batch's instance images are distinct, an instance
      image is reported successful exactly when a kept spec names it and it
      is present afterwards, and failed exactly when a kept spec names it and
      it is absent, whether or not it was present beforehand. */
  lemma InstanceTierReports(w: World, o: Oracle, specs: seq<TestSpec>, force: bool, order: seq<string>)
    requires NoDup(InstanceKeys(specs))
    requires EnvTierRun(ForceRemoveInstances(w, force, specs), o, specs, force, order).1.Ok?
    ensures var re := EnvTierRun(ForceRemoveInstances(w, force, specs), o, specs, force, order).1;
      var (w3, r) := InstanceTierRun(w, o, specs, force, order);
      r.Ok? && ReportedByPresence(InstanceKeys(Runnable(specs, re.value.failed)), w3.images, r.value)
  {
    var w1 := ForceRemoveInstances(w, force, specs);
    var (w2, re) := EnvTierRun(w1, o, specs, force, order);
    var kept := Runnable(specs, re.value.failed);
    InstanceTierPool(w, o, specs, force, order);
    EnvTierReports(w1, o, specs, force, order);
    forall s | s in kept ensures s.envImageKey in w2.images {
      RunnableMembers(specs, re.value.failed, s);
      assert s.envImageKey in EnvKeys(specs);
    }
    RunnableNoDup(specs, re.value.failed);
    InstancePoolReports(w2, o, kept);
  }

  /** When every base, env and instance image of the batch is present, the
      instance tier without force issues no operation and reports every
      instance image as successful. */
  lemma InstanceTierAllPresent(w: World, o: Oracle, specs: seq<TestSpec>)
    requires BaseKeys(specs) <= w.images && EnvKeys(specs) <= w.images
    requires forall s | s in specs :: s.instanceImageKey in w.images
    ensures InstanceTierRun(w, o, specs, false, []) == (w, Ok(Partition(InstanceKeys(specs), [])))
  {
    EnvTierAllPresent(w, o, specs);
    forall s | s in specs ensures s.envImageKey in w.images {
      assert s.envImageKey in EnvKeys(specs);
    }
    InstancePoolAllPresent(w, o, specs);
  }

  /** A pool that reports no failure leaves every spec's instance image
      present, and keeps what was present. */
  lemma InstancePoolAllSucceed(w: World, o: Oracle, specs: seq<TestSpec>)
    requires InstancePool(w, o, specs).1.failed == []
    ensures var w' := InstancePool(w, o, specs).0;
      w.images <= w'.images && forall s | s in specs :: s.instanceImageKey in w'.images
  {
    var (w', p) := InstancePool(w, o, specs);
    InstancePoolImages(w, o, specs);
    InstancePoolPartition(w, o, specs);
    assert multiset(p.failed) == multiset{};
    assert multiset(p.successful) == multiset(InstanceKeys(specs));
    forall s | s in specs ensures s.instanceImageKey in w'.images {
      var i :| 0 <= i < |specs| && specs[i] == s;
      assert InstanceKeys(specs)[i] in multiset(InstanceKeys(specs));
      assert s.instanceImageKey in p.successful;
    }
  }

  /** An instance tier in which no env image and no instance image failed
      leaves every base, env and instance image of the batch present. */
  lemma InstanceTierLeavesPresent(w: World, o: Oracle, specs: seq<TestSpec>, force: bool, order: seq<string>)
    requires EnvTierRun(ForceRemoveInstances(w, force, specs), o, specs, force, order).1.Ok?
    requires EnvTierRun(ForceRemoveInstances(w, force, specs), o, specs, force, order).1.value.failed == []
    requires InstanceTierRun(w, o, specs, force, order).1.Ok?
    requires InstanceTierRun(w, o, specs, force, order).1.value.failed == []
    ensures var w' := InstanceTierRun(w, o, specs, force, order).0;
      && BaseKeys(specs) <= w'.images && EnvKeys(specs) <= w'.images
      && (forall s | s in specs :: s.instanceImageKey in w'.images)
  {
    var w1 := ForceRemoveInstances(w, force, specs);
    var w2 := EnvTierRun(w1, o, specs, force, order).0;
    InstanceTierPool(w, o, specs, force, order);
    RunnableNoFailure(specs);
    assert InstanceTierRun(w, o, specs, force, order) == (InstancePool(w2, o, specs).0, Ok(InstancePool(w2, o, specs).1));
    EnvTierBasePresent(w1, o, specs, force, order);
    EnvTierReports(w1, o, specs, force, order);
    InstancePoolAllSucceed(w2, o, specs);
  }

  /** Idempotence: after an instance tier in which no env image and no
      instance image failed, running it again without force issues no
      operation and reports every instance image as successful. */
  lemma InstanceTierIdempotent(w: World, o: Oracle, specs: seq<TestSpec>, force: bool, order: seq<string>)
    requires EnvTierRun(ForceRemoveInstances(w, force, specs), o, specs, force, order).1.Ok?
    requires EnvTierRun(ForceRemoveInstances(w, force, specs), o, specs, force, order).1.value.failed == []
    requires InstanceTierRun(w, o, specs, force, order).1.Ok?
    requires InstanceTierRun(w, o, specs, force, order).1.value.failed == []
    ensures var w' := InstanceTierRun(w, o, specs, force, order).0;
      InstanceTierRun(w', o, specs, false, []) == (w', Ok(Partition(InstanceKeys(specs), [])))
  {
    InstanceTierLeavesPresent(w, o, specs, force, order);
    InstanceTierAllPresent(InstanceTierRun(w, o, specs, force, order).0, o, specs);
  }
}
