/**
 * The values the image-build pipeline of docker_build.py works on: test specs,
 * build directories, the Docker build stream, the observable operations on the
 * image registry, and the errors the pipeline raises.
 */
module Registry {
  import opened Wrappers

  /** The three build-directory roots: BASE_IMAGE_BUILD_DIR, ENV_IMAGE_BUILD_DIR
      and INSTANCE_IMAGE_BUILD_DIR. */
  datatype Tier = BaseTier | EnvTier | InstanceTier

  /** A build-context directory: a tier root and a sanitised image key under it. */
  datatype BuildDir = BuildDir(tier: Tier, name: string)

  /** A file inside a build-context directory. */
  datatype FilePath = FilePath(dir: BuildDir, file: string)

  const DOCKERFILE := "Dockerfile"
  const BUILD_IMAGE_LOG := "build_image.log"
  const PREPARE_IMAGE_LOG := "prepare_image.log"
  const SETUP_ENV_SCRIPT := "setup_env.sh"
  const SETUP_REPO_SCRIPT := "setup_repo.sh"
  const PLACEHOLDER_COMMAND := "tail -f /dev/null"

  /** `docker_specs["run_args"]`, of which only `cap_add` is read. */
  datatype RunArgs = RunArgs(capAdd: Option<seq<string>>)

  /** The fields of a test spec that the pipeline reads. */
  datatype TestSpec = TestSpec(
    instanceId: string,
    baseImageKey: string,
    baseDockerfile: string,
    envImageKey: string,
    envDockerfile: string,
    setupEnvScript: string,
    instanceImageKey: string,
    instanceDockerfile: string,
    installRepoScript: string,
    platform: string,
    isRemoteImage: bool,
    runArgs: Option<RunArgs>)

  /** `docker_specs.get("run_args", {}).get("cap_add", [])`. */
  function CapAdd(spec: TestSpec): seq<string>
  {
    match spec.runArgs
    case None => []
    case Some(args) => if args.capAdd.Some? then args.capAdd.value else []
  }

  /** One decoded chunk of the Docker build stream. */
  datatype Chunk = Stream(text: string) | ErrorDetail(message: string) | Other

  /** What the daemon answers to a build request: the chunks it streams and,
      possibly, an exception raised once they are exhausted (an exception raised
      by the build call itself is `Response([], Some(message))`). */
  datatype Response = Response(chunks: seq<Chunk>, failure: Option<string>)

  /** The arguments of `client.api.build` that vary (rm, forcerm and decode are
      always true). */
  datatype BuildRequest = BuildRequest(path: BuildDir, tag: string, platform: string, nocache: bool)

  datatype PullResult = Pulled | NotFound(message: string) | PullFailed(message: string)

  /** The arguments of `client.containers.create`. */
  datatype CreateRequest = CreateRequest(
    image: string, name: string, user: string, detach: bool,
    command: string, platform: string, capAdd: seq<string>)

  datatype CreateResult = Created(id: string) | CreateFailed(message: string)

  datatype Container = Container(id: string, request: CreateRequest)

  /** The observable effects of the pipeline, in the order they happen. */
  datatype Op =
    | Remove(key: string)
    | Write(path: FilePath, content: string)
    | Build(request: BuildRequest)
    | Pull(key: string)
    | Create(create: CreateRequest)
    | Cleanup(container: Option<string>)

  /** The behaviour of code this model cannot see: the Docker daemon's answers
      and the `ansi_escape` helper. */
  datatype Oracle = Oracle(
    build: BuildRequest -> Response,
    pull: string -> PullResult,
    create: CreateRequest -> CreateResult,
    ansi: string -> string)

  /** What a tier returns: the image names built and those that failed. */
  datatype Partition = Partition(successful: seq<string>, failed: seq<string>)

  /** A pool's outcome with `successful` and `failed` reported ahead of it. */
  function After(successful: seq<string>, failed: seq<string>, run: (World, Partition)): (res: (World, Partition))
  {
    (run.0, Partition(successful + run.1.successful, failed + run.1.failed))
  }

  /** Reporting one more success ahead of a run extends the successful list. */
  lemma AfterSuccess(successful: seq<string>, failed: seq<string>, name: string, run: (World, Partition))
    ensures After(successful, failed, After([name], [], run)) == After(successful + [name], failed, run)
  {
    assert successful + ([name] + run.1.successful) == successful + [name] + run.1.successful;
    assert [] + run.1.failed == run.1.failed;
  }

  /** Reporting one more failure ahead of a run extends the failed list. */
  lemma AfterFailure(successful: seq<string>, failed: seq<string>, name: string, run: (World, Partition))
    ensures After(successful, failed, After([], [name], run)) == After(successful, failed + [name], run)
  {
    assert failed + ([name] + run.1.failed) == failed + [name] + run.1.failed;
    assert [] + run.1.successful == run.1.successful;
  }

  /** The abstract registry: the images present, the build files on disk and
      the trace of every effect so far. */
  datatype World = World(images: set<string>, files: map<FilePath, string>, trace: seq<Op>)

  /** The two kinds of exception the pipeline raises: BuildImageError (with the
      image name, message and the logger's log file) and a plain Exception.
      `buildLog` stands for the `build_log` of the docker BuildError chained as
      the cause, when there is one; the exception itself does not hold it. */
  datatype Error =
    | BuildImageError(imageName: string, message: string, logPath: FilePath, buildLog: Option<string>)
    | Failure(message: string)

  /** The directory name of an image key: `key.replace(":", "__")`. */
  function DirName(key: string): (r: string)
    ensures ':' !in r
    ensures forall c :: c in r ==> c in key || c == '_'
    ensures forall c :: c in key && c != ':' ==> c in r
    ensures ':' !in key ==> r == key
  {
    if |key| == 0 then ""
    else (if key[0] == ':' then "__" else [key[0]]) + DirName(key[1..])
  }

  /** The renaming is not injective: two different keys share a directory. */
  lemma DirNameCollides()
    ensures "a:b" != "a__b" && DirName("a:b") == DirName("a__b")
  {
    assert ("a:b")[0] != ("a__b")[0] || ("a:b")[1] != ("a__b")[1];
    assert DirName("b") == "b";
    assert DirName(":b") == "__b";
    assert DirName("__b") == "__b";
  }

  // ---- primitive effects on the world ----

  /** `remove_image(client, key, "quiet")`: the image is gone afterwards, whether or
      not it was there. */
  function RemoveImage(w: World, key: string): (w': World)
    ensures key !in w'.images && w'.images == w.images - {key}
    ensures w'.trace == w.trace + [Remove(key)] && w'.files == w.files
  {
    w.(images := w.images - {key}, trace := w.trace + [Remove(key)])
  }

  /** Removing the images of `keys`, one after another. */
  function RemoveEach(w: World, keys: seq<string>): (w': World)
  {
    if |keys| == 0 then w else RemoveImage(RemoveEach(w, keys[..|keys| - 1]), keys[|keys| - 1])
  }

  function RemoveOps(keys: seq<string>): (ops: seq<Op>)
    ensures |ops| == |keys| && forall i | 0 <= i < |keys| :: ops[i] == Remove(keys[i])
  {
    if |keys| == 0 then [] else RemoveOps(keys[..|keys| - 1]) + [Remove(keys[|keys| - 1])]
  }

  lemma {:induction false} RemoveEachEffect(w: World, keys: seq<string>)
    ensures RemoveEach(w, keys).images == w.images - (set k | k in keys)
    ensures RemoveEach(w, keys).files == w.files
    ensures RemoveEach(w, keys).trace == w.trace + RemoveOps(keys)
  {
    if |keys| > 0 {
      var init := keys[..|keys| - 1];
      RemoveEachEffect(w, init);
      assert (set k | k in keys) == (set k | k in init) + {keys[|keys| - 1]} by {
        assert keys == init + [keys[|keys| - 1]];
      }
    }
  }

  /** Writing one file of a build context. */
  function WriteFile(w: World, path: FilePath, content: string): (w': World)
    ensures w'.images == w.images && w'.files == w.files[path := content]
    ensures w'.trace == w.trace + [Write(path, content)]
  {
    w.(files := w.files[path := content], trace := w.trace + [Write(path, content)])
  }

  // ---- counting operations in a trace ----

  function BuildsOf(t: seq<Op>, tag: string): nat
  {
    if |t| == 0 then 0
    else (if t[0].Build? && t[0].request.tag == tag then 1 else 0) + BuildsOf(t[1..], tag)
  }

  function AllBuilds(t: seq<Op>): nat
  {
    if |t| == 0 then 0 else (if t[0].Build? then 1 else 0) + AllBuilds(t[1..])
  }

  function RemovesOf(t: seq<Op>, key: string): nat
  {
    if |t| == 0 then 0 else (if t[0] == Remove(key) then 1 else 0) + RemovesOf(t[1..], key)
  }

  function PullsOf(t: seq<Op>, key: string): nat
  {
    if |t| == 0 then 0 else (if t[0] == Pull(key) then 1 else 0) + PullsOf(t[1..], key)
  }

  lemma {:induction false} CountsAppend(a: seq<Op>, b: seq<Op>, key: string)
    ensures BuildsOf(a + b, key) == BuildsOf(a, key) + BuildsOf(b, key)
    ensures AllBuilds(a + b) == AllBuilds(a) + AllBuilds(b)
    ensures RemovesOf(a + b, key) == RemovesOf(a, key) + RemovesOf(b, key)
    ensures PullsOf(a + b, key) == PullsOf(a, key) + PullsOf(b, key)
  {
    if |a| > 0 {
      assert (a + b)[1..] == a[1..] + b;
      CountsAppend(a[1..], b, key);
    } else {
      assert a + b == b;
    }
  }

  /** The counts of a one-operation trace. */
  lemma CountsSingle(op: Op, key: string)
    ensures BuildsOf([op], key) == (if op.Build? && op.request.tag == key then 1 else 0)
    ensures AllBuilds([op]) == (if op.Build? then 1 else 0)
    ensures RemovesOf([op], key) == (if op == Remove(key) then 1 else 0)
    ensures PullsOf([op], key) == (if op == Pull(key) then 1 else 0)
  {
    assert [op][1..] == [];
  }

  /** The elements of a sequence of keys, as a set. */
  function Elems(s: seq<string>): set<string>
  {
    set k | k in s
  }

  predicate NoDup(s: seq<string>)
  {
    forall i, j | 0 <= i < j < |s| :: s[i] != s[j]
  }

  /** `order` lists every element of `s` exactly once. */
  ghost predicate Enumerates(order: seq<string>, s: set<string>)
  {
    NoDup(order) && (forall k :: k in order <==> k in s)
  }

  /** A duplicate-free sequence holds each element at most once. */
  lemma {:induction false} NoDupCount(s: seq<string>, n: string)
    requires NoDup(s)
    ensures multiset(s)[n] <= 1
    ensures n in s ==> multiset(s)[n] == 1
  {
    if |s| > 0 {
      assert s == [s[0]] + s[1..];
      assert NoDup(s[1..]);
      NoDupCount(s[1..], n);
      if n == s[0] {
        assert n !in s[1..];
      }
    }
  }

  /** A pool's reported lists, checked against the registry: when the names
      handed to it are distinct and absent beforehand, and the pool only adds
      the images it reports as successful, a name is reported successful
      exactly when its image is present afterwards, and failed exactly when
      it is absent. */
  lemma PartitionByImages(names: seq<string>, before: set<string>, after: set<string>, p: Partition)
    requires NoDup(names)
    requires multiset(p.successful) + multiset(p.failed) == multiset(names)
    requires forall n | n in names :: n !in before
    requires after == before + Elems(p.successful)
    ensures forall n :: n in p.successful <==> n in names && n in after
    ensures forall n :: n in p.failed <==> n in names && n !in after
  {
    forall n ensures (n in p.successful <==> n in names && n in after)
                  && (n in p.failed <==> n in names && n !in after)
    {
      NoDupCount(names, n);
      assert n in names <==> multiset(names)[n] > 0;
      assert n in p.successful <==> multiset(p.successful)[n] > 0;
      assert n in p.failed <==> multiset(p.failed)[n] > 0;
    }
  }

  /** A pool's two lists match the registry it left: a name is reported
      successful exactly when it was handed to the pool and its image is
      present, and failed exactly when it was handed over and is absent. */
  ghost predicate ReportedByPresence(names: seq<string>, after: set<string>, p: Partition)
  {
    && (forall n :: n in p.successful <==> n in names && n in after)
    && (forall n :: n in p.failed <==> n in names && n !in after)
  }

  /** One more name reported ahead of a pool's lists keeps them tied to the
      registry: the name is reported successful exactly when its image is
      present after its own step, and no later step adds it. */
  lemma ReportsCons(k: string, ks: seq<string>, mid: set<string>, after: set<string>, ok: bool, p: Partition)
    requires k !in ks
    requires after == mid + Elems(p.successful)
    requires ok <==> k in mid
    requires ReportedByPresence(ks, after, p)
    ensures ok ==> ReportedByPresence([k] + ks, after, Partition([k] + p.successful, p.failed))
    ensures !ok ==> ReportedByPresence([k] + ks, after, Partition(p.successful, [k] + p.failed))
  {
  }
}
