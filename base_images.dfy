/**
 * The base tier (`build_base_images`): one plan entry per distinct base key,
 * then, key by key, skip, remove and rebuild, or build. A failed build is not
 * caught, so it ends the whole tier.
 */
module BaseImages {
  import opened Wrappers
  import opened Registry
  import opened Dicts
  import opened BuildUnit

  function BaseKey(s: TestSpec): string { s.baseImageKey }
  function BaseEntry(s: TestSpec): (string, string) { (s.baseDockerfile, s.platform) }

  /** `{x.base_image_key: (x.base_dockerfile, x.platform) for x in test_specs}`. */
  function BasePlan(specs: seq<TestSpec>): (d: Dict<(string, string)>)
    ensures d.Valid()
  {
    FoldPut(Empty(), specs, BaseKey, BaseEntry)
  }

  /** The plan has one entry per distinct base key, listed once each, and a
      later spec overwrites an earlier one with the same key. */
  lemma BasePlanSpec(specs: seq<TestSpec>)
    ensures NoDup(BasePlan(specs).keys)
    ensures forall k :: k in BasePlan(specs).values <==> exists i | 0 <= i < |specs| :: specs[i].baseImageKey == k
    ensures forall i | 0 <= i < |specs| && LastWithKey(specs, BaseKey, i) ::
      BasePlan(specs).values[specs[i].baseImageKey] == (specs[i].baseDockerfile, specs[i].platform)
  {
    forall k ensures k in BasePlan(specs).values <==> exists i | 0 <= i < |specs| :: specs[i].baseImageKey == k {
      FoldPutKeys(Empty(), specs, BaseKey, BaseEntry, k);
    }
    forall i | 0 <= i < |specs| && LastWithKey(specs, BaseKey, i)
      ensures BasePlan(specs).values[specs[i].baseImageKey] == (specs[i].baseDockerfile, specs[i].platform)
    {
      FoldPutLastWins(Empty(), specs, BaseKey, BaseEntry, i);
    }
  }

  /** `BASE_IMAGE_BUILD_DIR / image_name.replace(":", "__")`. */
  function BaseDir(key: string): (d: BuildDir)
    ensures d.tier == BaseTier && ':' !in d.name
  {
    BuildDir(BaseTier, DirName(key))
  }

  /** One iteration of the loop over the plan's items. */
  function BaseStep(w: World, o: Oracle, key: string, entry: (string, string), force: bool)
    : (res: (World, Result<(), Error>))
  {
    if key in w.images && !force then (w, Ok(()))
    else
      var w1 := if key in w.images then RemoveImage(w, key) else w;
      BuildImageSpec(w1, o, key, [], entry.0, entry.1, BaseDir(key), false)
  }

  /** The loop over the plan's items; the first failed build ends it. */
  function BaseRun(w: World, o: Oracle, items: seq<(string, (string, string))>, force: bool)
    : (res: (World, Result<(), Error>))
    decreases |items|
  {
    if |items| == 0 then (w, Ok(()))
    else
      var (w1, r) := BaseStep(w, o, items[0].0, items[0].1, force);
      if r.Err? then (w1, r) else BaseRun(w1, o, items[1..], force)
  }

  /** `build_base_images(client, dataset, force_rebuild)`. */
  function BuildBaseImagesSpec(w: World, o: Oracle, specs: seq<TestSpec>, force: bool)
    : (res: (World, Result<(), Error>))
  {
    BaseRun(w, o, BasePlan(specs).Items(), force)
  }

  /** The three outcomes of one key: present and not forced is skipped with no
      operation; present and forced is one removal, then the Dockerfile write
      and the build; absent is the Dockerfile write and the build, with no
      setup script. */
  lemma BaseStepTrace(w: World, o: Oracle, key: string, entry: (string, string), force: bool)
    ensures var (w', r) := BaseStep(w, o, key, entry, force);
      var build := [Write(FilePath(BaseDir(key), DOCKERFILE), entry.0),
                    Build(BuildRequest(BaseDir(key), key, entry.1, false))];
      && (key in w.images && !force ==> w' == w && r == Ok(()))
      && (key in w.images && force ==> w'.trace == w.trace + [Remove(key)] + build)
      && (key !in w.images ==> w'.trace == w.trace + build)
  {
    var w1 := if key in w.images then RemoveImage(w, key) else w;
    BuildImageEffect(w1, o, key, [], entry.0, entry.1, BaseDir(key), false);
    assert ScriptWrites(BaseDir(key), []) == [];
  }

  /** How one key changes the counts and the registry. */
  lemma BaseStepCounts(w: World, o: Oracle, key: string, entry: (string, string), force: bool, k: string)
    ensures var (w', r) := BaseStep(w, o, key, entry, force);
      && BuildsOf(w'.trace, k) == BuildsOf(w.trace, k) + (if k == key && !(key in w.images && !force) then 1 else 0)
      && RemovesOf(w'.trace, k) == RemovesOf(w.trace, k) + (if k == key && key in w.images && force then 1 else 0)
      && (k != key ==> (k in w'.images <==> k in w.images))
      && (r.Ok? ==> w'.images == w.images + {key})
  {
    if !(key in w.images && !force) {
      var w1 := if key in w.images then RemoveImage(w, key) else w;
      if key in w.images {
        CountsAppend(w.trace, [Remove(key)], k);
        CountsSingle(Remove(key), k);
      }
      BuildImageEffect(w1, o, key, [], entry.0, entry.1, BaseDir(key), false);
      BuildImageCounts(w1, o, key, [], entry.0, entry.1, BaseDir(key), false, k);
    }
  }

  /** After a tier that succeeded, the registry holds exactly what it held
      before plus every planned key. */
  lemma {:induction false} BaseRunImages(w: World, o: Oracle, items: seq<(string, (string, string))>, force: bool)
    requires BaseRun(w, o, items, force).1.Ok?
    ensures BaseRun(w, o, items, force).0.images == w.images + Elems(ItemKeys(items))
    decreases |items|
  {
    if |items| > 0 {
      var w1 := BaseStep(w, o, items[0].0, items[0].1, force).0;
      BaseStepCounts(w, o, items[0].0, items[0].1, force, items[0].0);
      BaseRunImages(w1, o, items[1..], force);
      assert ItemKeys(items) == [items[0].0] + ItemKeys(items[1..]);
      assert Elems(ItemKeys(items)) == {items[0].0} + Elems(ItemKeys(items[1..]));
    }
  }

  /** Over a successful tier with distinct keys, each planned key is built at
      most once: not at all when present and not forced, otherwise exactly
      once; it is removed exactly when it was present and rebuild was forced;
      a key outside the plan is neither built nor removed. */
  lemma {:induction false} BaseRunCounts(w: World, o: Oracle, items: seq<(string, (string, string))>, force: bool, k: string)
    requires NoDup(ItemKeys(items))
    requires BaseRun(w, o, items, force).1.Ok?
    ensures var w' := BaseRun(w, o, items, force).0;
      && BuildsOf(w'.trace, k) == BuildsOf(w.trace, k)
           + (if k in ItemKeys(items) && !(k in w.images && !force) then 1 else 0)
      && RemovesOf(w'.trace, k) == RemovesOf(w.trace, k)
           + (if k in ItemKeys(items) && k in w.images && force then 1 else 0)
    decreases |items|
  {
    if |items| > 0 {
      var key := items[0].0;
      var w1 := BaseStep(w, o, key, items[0].1, force).0;
      BaseStepCounts(w, o, key, items[0].1, force, k);
      assert ItemKeys(items[1..]) == ItemKeys(items)[1..];
      assert NoDup(ItemKeys(items[1..]));
      BaseRunCounts(w1, o, items[1..], force, k);
      if k == key {
        assert k !in ItemKeys(items[1..]);
      } else {
        assert k in ItemKeys(items) <==> k in ItemKeys(items[1..]);
      }
    }
  }

  /** Whether the tier succeeds or a failed build ends it, over distinct keys
      each key is built at most once and removed at most once, and a key
      outside the plan is neither built nor removed. */
  lemma {:induction false} BaseRunAtMostOnce(w: World, o: Oracle, items: seq<(string, (string, string))>, force: bool, k: string)
    requires NoDup(ItemKeys(items))
    ensures var w' := BaseRun(w, o, items, force).0;
      var bound := if k in ItemKeys(items) then 1 else 0;
      && BuildsOf(w.trace, k) <= BuildsOf(w'.trace, k) <= BuildsOf(w.trace, k) + bound
      && RemovesOf(w.trace, k) <= RemovesOf(w'.trace, k) <= RemovesOf(w.trace, k) + bound
    decreases |items|
  {
    if |items| > 0 {
      var key := items[0].0;
      var (w1, r) := BaseStep(w, o, key, items[0].1, force);
      BaseStepCounts(w, o, key, items[0].1, force, k);
      assert key == ItemKeys(items)[0];
      if r.Ok? {
        assert ItemKeys(items[1..]) == ItemKeys(items)[1..];
        assert NoDup(ItemKeys(items[1..]));
        BaseRunAtMostOnce(w1, o, items[1..], force, k);
        if k == key {
          assert k !in ItemKeys(items[1..]);
        } else {
          assert k in ItemKeys(items) <==> k in ItemKeys(items[1..]);
        }
      }
    }
  }

  /** The base keys of a batch. */
  function BaseKeys(specs: seq<TestSpec>): set<string>
  {
    set s | s in specs :: s.baseImageKey
  }

  lemma BasePlanKeys(specs: seq<TestSpec>)
    ensures Elems(ItemKeys(BasePlan(specs).Items())) == BaseKeys(specs)
    ensures forall k :: k in ItemKeys(BasePlan(specs).Items()) <==> exists i | 0 <= i < |specs| :: specs[i].baseImageKey == k
  {
    var plan := BasePlan(specs);
    BasePlanSpec(specs);
    assert ItemKeys(plan.Items()) == plan.keys;
    forall k ensures k in plan.keys <==> k in BaseKeys(specs) {
      if k in BaseKeys(specs) {
        var s :| s in specs && s.baseImageKey == k;
        var j :| 0 <= j < |specs| && specs[j] == s;
        assert k in plan.values;
      }
    }
  }

  /** On its plan, the base tier builds each distinct key at most once, and
      exactly as the key's presence and the force flag decide; afterwards
      every base key of the batch is present. */
  lemma BaseTierCounts(w: World, o: Oracle, specs: seq<TestSpec>, force: bool, k: string)
    requires BuildBaseImagesSpec(w, o, specs, force).1.Ok?
    ensures var w' := BuildBaseImagesSpec(w, o, specs, force).0;
      && BuildsOf(w'.trace, k) == BuildsOf(w.trace, k) + (if k in BaseKeys(specs) && !(k in w.images && !force) then 1 else 0)
      && RemovesOf(w'.trace, k) == RemovesOf(w.trace, k) + (if k in BaseKeys(specs) && k in w.images && force then 1 else 0)
      && w'.images == w.images + BaseKeys(specs)
  {
    var items := BasePlan(specs).Items();
    BasePlanSpec(specs);
    BasePlanKeys(specs);
    assert ItemKeys(items) == BasePlan(specs).keys;
    assert k in ItemKeys(items) <==> k in BaseKeys(specs);
    BaseRunCounts(w, o, items, force, k);
    BaseRunImages(w, o, items, force);
  }

  /** Whether the base tier succeeds or a failed build ends it, each base key
      of the batch is built at most once and removed at most once, and no
      other key is built or removed. */
  lemma BaseTierAtMostOnce(w: World, o: Oracle, specs: seq<TestSpec>, force: bool, k: string)
    ensures var w' := BuildBaseImagesSpec(w, o, specs, force).0;
      var bound := if k in BaseKeys(specs) then 1 else 0;
      && BuildsOf(w.trace, k) <= BuildsOf(w'.trace, k) <= BuildsOf(w.trace, k) + bound
      && RemovesOf(w.trace, k) <= RemovesOf(w'.trace, k) <= RemovesOf(w.trace, k) + bound
  {
    var items := BasePlan(specs).Items();
    BasePlanSpec(specs);
    BasePlanKeys(specs);
    assert ItemKeys(items) == BasePlan(specs).keys;
    assert k in ItemKeys(items) <==> k in BaseKeys(specs);
    BaseRunAtMostOnce(w, o, items, force, k);
  }

  /** A failed build ends the tier: nothing after the failing item runs. */
  lemma {:induction false} BaseFailureAborts(w: World, o: Oracle, items: seq<(string, (string, string))>, force: bool, n: nat)
    requires n <= |items|
    requires BaseRun(w, o, items[..n], force).1.Err?
    ensures BaseRun(w, o, items, force) == BaseRun(w, o, items[..n], force)
    decreases n
  {
    assert n > 0;
    var (w1, r) := BaseStep(w, o, items[0].0, items[0].1, force);
    assert items[..n][0] == items[0];
    if r.Ok? {
      assert items[..n][1..] == items[1..][..n - 1];
      BaseFailureAborts(w1, o, items[1..], force, n - 1);
    }
  }

  /** When every planned key is present, a run without force does nothing. */
  lemma {:induction false} BaseRunAllPresent(w: World, o: Oracle, items: seq<(string, (string, string))>)
    requires forall i | 0 <= i < |items| :: items[i].0 in w.images
    ensures BaseRun(w, o, items, false) == (w, Ok(()))
    decreases |items|
  {
    if |items| > 0 {
      assert forall i | 0 <= i < |items[1..]| :: items[1..][i] == items[i + 1];
      BaseRunAllPresent(w, o, items[1..]);
    }
  }

  /** Idempotence: running the tier again without force on the registry a
      successful run left behind issues no operation at all. */
  lemma BaseTierIdempotent(w: World, o: Oracle, specs: seq<TestSpec>, force: bool)
    requires BuildBaseImagesSpec(w, o, specs, force).1.Ok?
    ensures var w' := BuildBaseImagesSpec(w, o, specs, force).0;
      BuildBaseImagesSpec(w', o, specs, false) == (w', Ok(()))
  {
    var items := BasePlan(specs).Items();
    BaseRunImages(w, o, items, force);
    var w' := BuildBaseImagesSpec(w, o, specs, force).0;
    assert forall i | 0 <= i < |items| :: items[i].0 in w'.images;
    BaseRunAllPresent(w', o, items);
  }
}
