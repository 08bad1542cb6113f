// The build job of a workflow: the saved specification the job holds, the
// operations that rewrite it (clearing the selection, merging runtime
// arguments, catching up with the latest saved workflow), and its
// compilation into one job task per selected service module.

module JobBuildJob {
  import opened Common
  import opened Models
  import opened JobBuild

  // =====================================================================
  // Records the compiler reads from the store

  /**
   * A service module a build is configured for, with the repositories and
   * variables the module configures for a build made from a template.
   */
  datatype BuildTarget = BuildTarget(
    serviceName: string,
    serviceModule: string,
    repos: seq<Repository>,
    envs: seq<KeyVal>)

  datatype ScriptType = ScriptShell | ScriptBatchFile | ScriptPowerShell | ScriptEmpty | ScriptOther(raw: string)

  datatype Infrastructure = VMInfrastructure | KubernetesInfrastructure | OtherInfrastructure(raw: string)

  datatype CacheMedium = NoMedium | NFSMedium | ObjectMedium | OtherMedium(raw: string)

  datatype ObjectStorageUpload = ObjectStorageUpload(enabled: bool, objectStorageID: string)

  /** The post-build part of a build: an optional docker build, archives and a script. */
  datatype PostBuild = PostBuild(
    hasDockerBuild: bool,
    fileLocation: string,
    objectStorageUpload: Option<ObjectStorageUpload>,
    scripts: string)

  /**
   * A saved build, as the build store returns it; a build made from a
   * template names the template and takes its settings from it.
   */
  datatype BuildInfo = BuildInfo(
    templateID: string,
    targets: seq<BuildTarget>,
    repos: seq<Repository>,
    envs: seq<KeyVal>,
    timeout: int,
    infrastructure: Infrastructure,
    outputs: seq<Output>,
    imageID: string,
    clusterID: string,
    cacheEnable: bool,
    cacheUserDefined: bool,
    cacheUserDir: string,
    scriptType: ScriptType,
    postBuild: Option<PostBuild>)

  /**
   * A build template: the settings a build made from it takes over. Its
   * pre-build part holds the variables, the base image and the cluster.
   */
  datatype BuildTemplate = BuildTemplate(
    timeout: int,
    envs: seq<KeyVal>,
    imageID: string,
    clusterID: string,
    infrastructure: Infrastructure,
    outputs: seq<Output>,
    cacheEnable: bool,
    cacheUserDefined: bool,
    cacheUserDir: string,
    scriptType: ScriptType,
    postBuild: Option<PostBuild>)

  /**
   * The build store: the builds by name, the build templates by id, and
   * the merge of a template's variables with a service module's, whose
   * code lies outside this model.
   */
  datatype BuildStore = BuildStore(
    builds: map<string, BuildInfo>,
    templates: map<string, BuildTemplate>,
    mergeBuildEnvs: (seq<KeyVal>, seq<KeyVal>) -> seq<KeyVal>)

  /** The cache a cluster offers; NoMedium when it has none. */
  datatype ClusterCache = ClusterCache(mediumType: CacheMedium, objectStorageID: string)

  datatype S3Storage = S3Storage(
    ak: string, sk: string, endpoint: string, bucket: string, subfolder: string,
    insecure: bool, provider: int, region: string)

  /** The object-storage description a step carries. */
  datatype S3 = S3(
    ak: string, sk: string, endpoint: string, bucket: string, subfolder: string,
    insecure: bool, provider: int, region: string, protocol: string)

  /**
   * What compiling build jobs looks up: the registries, the default
   * object storage, the build store, the known base images, the
   * clusters and the object storages by id, the failure of the registry
   * namespace listing if it fails; and the helpers whose code
   * lies outside this model (the image-tag generator, the job-name
   * formatter, and the per-build workflow variables).
   */
  datatype BuildEnvironment = BuildEnvironment(
    registries: map<string, Registry>,
    defaultS3: Option<S3Storage>,
    store: BuildStore,
    basicImages: set<string>,
    registryListError: Option<string>,
    clusters: map<string, ClusterCache>,
    storages: map<string, S3Storage>,
    releaseCandidate: (seq<Repository>, string, string, string) -> string,
    jobNameFormat: string -> string,
    buildVariables: (ServiceAndBuild, string, string) -> seq<KeyVal>)

  // =====================================================================
  // getBuildJobCacheObjectPath and modelS3toS3

  function CacheObjectPath(workflowName: string, serviceName: string, serviceModule: string): string
  {
    workflowName + "/cache/" + serviceName + "/" + serviceModule
  }

  /** Within one workflow, service modules whose names lack '/' get different cache paths. */
  lemma CacheObjectPathInjective(wf: string, s1: string, m1: string, s2: string, m2: string)
    requires '/' !in s1 && '/' !in s2
    requires CacheObjectPath(wf, s1, m1) == CacheObjectPath(wf, s2, m2)
    ensures s1 == s2 && m1 == m2
  {
    var p := wf + "/cache/";
    assert CacheObjectPath(wf, s1, m1) == p + (s1 + ['/'] + m1);
    assert CacheObjectPath(wf, s2, m2) == p + (s2 + ['/'] + m2);
    assert s1 + ['/'] + m1 == CacheObjectPath(wf, s1, m1)[|p|..];
    SeparatedPairInjective('/', s1, m1, s2, m2);
  }

  /** The step's storage: every field copied, and plain http exactly for an insecure store. */
  function ModelS3ToS3(m: S3Storage): (r: S3)
    ensures r.protocol == (if m.insecure then "http" else "")
    ensures r.ak == m.ak && r.sk == m.sk && r.endpoint == m.endpoint && r.bucket == m.bucket
    ensures r.subfolder == m.subfolder && r.insecure == m.insecure
    ensures r.provider == m.provider && r.region == m.region
  {
    S3(m.ak, m.sk, m.endpoint, m.bucket, m.subfolder, m.insecure, m.provider, m.region,
       if m.insecure then "http" else "")
  }

  // =====================================================================
  // ClearSelectionField

  /** The selection is kept only when it holds exactly one service module. */
  function ClearedSelection(s: BuildJobSpec): (r: BuildJobSpec)
    ensures r.dockerRegistryID == s.dockerRegistryID
    ensures |s.serviceAndBuilds| == 1 ==> r == s
    ensures |s.serviceAndBuilds| != 1 ==> r.serviceAndBuilds == []
  {
    if |s.serviceAndBuilds| != 1 then s.(serviceAndBuilds := []) else s
  }

  // =====================================================================
  // MergeArgs

  /** Two entries name the same build of the same service module. */
  predicate SameBuildTarget(a: ServiceAndBuild, b: ServiceAndBuild)
  {
    a.buildName == b.buildName && a.serviceName == b.serviceName && a.serviceModule == b.serviceModule
  }

  /** The first argument entry for the stored entry's build and service module. */
  function FirstSameBuild(args: seq<ServiceAndBuild>, b: ServiceAndBuild): (r: Option<nat>)
    ensures r.Some? ==> (r.value < |args| && SameBuildTarget(b, args[r.value])
      && forall k :: 0 <= k < r.value ==> !SameBuildTarget(b, args[k]))
    ensures r.None? ==> forall k :: 0 <= k < |args| ==> !SameBuildTarget(b, args[k])
  {
    if |args| == 0 then None
    else if SameBuildTarget(b, args[0]) then Some(0)
    else match FirstSameBuild(args[1..], b)
      case None => None
      case Some(k) => Some(k + 1)
  }

  /** The first argument entry naming the stored entry's target is found. */
  lemma FirstSameBuildIs(args: seq<ServiceAndBuild>, b: ServiceAndBuild, j: nat)
    requires j < |args| && SameBuildTarget(b, args[j])
    requires forall k :: 0 <= k < j ==> !SameBuildTarget(b, args[k])
    ensures FirstSameBuild(args, b) == Some(j)
  {
  }

  /** A stored entry merged with an argument entry: only its repositories and parameters change. */
  function MergeBuild(stored: ServiceAndBuild, arg: ServiceAndBuild): (r: ServiceAndBuild)
    ensures r == stored.(repos := r.repos, keyVals := r.keyVals)
    ensures |r.repos| == |stored.repos| && |r.keyVals| == |stored.keyVals|
  {
    stored.(repos := MergedRepos(stored.repos, arg.repos),
            keyVals := RenderedKeyVals(arg.keyVals, stored.keyVals))
  }

  /** A stored entry with an argument entry is merged with the first one; any other is dropped. */
  function MergeWithArgs(args: seq<ServiceAndBuild>): ServiceAndBuild -> Option<ServiceAndBuild>
  {
    b => match FirstSameBuild(args, b)
      case None => None
      case Some(k) => Some(MergeBuild(b, args[k]))
  }

  function MergedBuilds(stored: seq<ServiceAndBuild>, args: seq<ServiceAndBuild>): seq<ServiceAndBuild>
  {
    FilterMap(stored, MergeWithArgs(args))
  }

  /**
   * After merging arguments, the selection is the stored entries some
   * argument entry names, in stored order, each merged with the first
   * argument entry that names it.
   */
  lemma MergedBuildsSelected(stored: seq<ServiceAndBuild>, args: seq<ServiceAndBuild>)
    ensures var r := MergedBuilds(stored, args);
      var idx := KeptIndices(stored, MergeWithArgs(args));
      |r| == |idx|
      && (forall k :: 0 <= k < |idx| ==>
            (idx[k] < |stored| && FirstSameBuild(args, stored[idx[k]]).Some?
             && r[k] == MergeBuild(stored[idx[k]], args[FirstSameBuild(args, stored[idx[k]]).value])))
      && (forall k, l :: 0 <= k < l < |idx| ==> idx[k] < idx[l])
      && (forall i :: 0 <= i < |stored| && FirstSameBuild(args, stored[i]).Some? ==> i in idx)
  {
    FilterMapKeeps(stored, MergeWithArgs(args));
  }

  // =====================================================================
  // fillBuildDetail

  /** The first target of a build for the service module. */
  function TargetOf(targets: seq<BuildTarget>, serviceName: string, serviceModule: string): (r: Option<BuildTarget>)
    ensures r.Some? <==> HasTarget(targets, serviceName, serviceModule)
    ensures r.Some? ==> r.value in targets && r.value.serviceName == serviceName && r.value.serviceModule == serviceModule
  {
    if |targets| == 0 then None
    else if targets[0].serviceName == serviceName && targets[0].serviceModule == serviceModule then Some(targets[0])
    else
      assert forall t :: t in targets[1..] ==> t in targets;
      assert forall t :: t in targets ==> t == targets[0] || t in targets[1..];
      TargetOf(targets[1..], serviceName, serviceModule)
  }

  /** The settings a build takes over from its template. */
  predicate TakesTemplate(r: BuildInfo, t: BuildTemplate)
  {
    r.timeout == t.timeout && r.imageID == t.imageID && r.clusterID == t.clusterID
    && r.infrastructure == t.infrastructure && r.outputs == t.outputs
    && r.cacheEnable == t.cacheEnable && r.cacheUserDefined == t.cacheUserDefined && r.cacheUserDir == t.cacheUserDir
    && r.scriptType == t.scriptType && r.postBuild == t.postBuild
  }

  const TemplateMissing := "failed to find build template with id: "

  /**
   * A build filled in for one service module. A build not made from a
   * template stays as saved, and one whose template is missing is an
   * error. Otherwise the build takes the template's settings; when it is
   * configured for the module, it takes the module's repositories and the
   * template's variables merged with the module's, and otherwise it keeps
   * its own repositories and the template's variables.
   */
  function FilledBuild(info: BuildInfo, serviceName: string, serviceModule: string, store: BuildStore)
    : (r: Result<BuildInfo>)
    ensures info.templateID == "" ==> r == Ok(info)
    ensures r.Err? <==> info.templateID != "" && info.templateID !in store.templates
    ensures r.Err? ==> r.msg == TemplateMissing + info.templateID + ", err"
    ensures r.Ok? ==> r.value.templateID == info.templateID && r.value.targets == info.targets
    ensures r.Ok? && info.templateID != "" ==>
      var t := store.templates[info.templateID];
      TakesTemplate(r.value, t)
      && match TargetOf(info.targets, serviceName, serviceModule)
         case Some(target) => r.value.repos == target.repos && r.value.envs == store.mergeBuildEnvs(t.envs, target.envs)
         case None => r.value.repos == info.repos && r.value.envs == t.envs
  {
    if info.templateID == "" then Ok(info)
    else if info.templateID !in store.templates then Err(TemplateMissing + info.templateID + ", err")
    else
      var t := store.templates[info.templateID];
      var base := info.(timeout := t.timeout, envs := t.envs, imageID := t.imageID, clusterID := t.clusterID,
                        infrastructure := t.infrastructure, outputs := t.outputs,
                        cacheEnable := t.cacheEnable, cacheUserDefined := t.cacheUserDefined,
                        cacheUserDir := t.cacheUserDir, scriptType := t.scriptType, postBuild := t.postBuild);
      match TargetOf(info.targets, serviceName, serviceModule)
      case None => Ok(base)
      case Some(target) => Ok(base.(repos := target.repos, envs := store.mergeBuildEnvs(t.envs, target.envs)))
  }

  /**
   * Two service modules a template build is configured for: filling the
   * build for the second gives the same record whether or not it was
   * filled for the first before; each module gets its own repositories.
   */
  lemma FilledBuildPerModule(info: BuildInfo, s1: string, m1: string, s2: string, m2: string, store: BuildStore)
    requires FilledBuild(info, s1, m1, store).Ok? && HasTarget(info.targets, s2, m2)
    ensures FilledBuild(FilledBuild(info, s1, m1, store).value, s2, m2, store) == FilledBuild(info, s2, m2, store)
    ensures info.templateID != "" ==>
      FilledBuild(info, s2, m2, store).value.repos == TargetOf(info.targets, s2, m2).value.repos
  {
  }

  /** Filling a filled build again for the same service module changes nothing. */
  lemma FilledBuildIdempotent(info: BuildInfo, serviceName: string, serviceModule: string, store: BuildStore)
    requires FilledBuild(info, serviceName, serviceModule, store).Ok?
    ensures var r := FilledBuild(info, serviceName, serviceModule, store).value;
      FilledBuild(r, serviceName, serviceModule, store) == Ok(r)
  {
  }

  /** fillBuildDetail, step by step: the template's settings, then the first target for the module. */
  method FillBuildDetail(moduleBuild: BuildInfo, serviceName: string, serviceModule: string, store: BuildStore)
    returns (filled: BuildInfo, err: Option<string>)
    ensures var r := FilledBuild(moduleBuild, serviceName, serviceModule, store);
      (r.Ok? ==> err.None? && filled == r.value) && (r.Err? ==> err == Some(r.msg))
  {
    filled := moduleBuild;
    if moduleBuild.templateID == "" {
      return filled, None;
    }
    if moduleBuild.templateID !in store.templates {
      return filled, Some(TemplateMissing + moduleBuild.templateID + ", err");
    }
    var template := store.templates[moduleBuild.templateID];
    filled := filled.(timeout := template.timeout, envs := template.envs, imageID := template.imageID,
                      clusterID := template.clusterID, infrastructure := template.infrastructure,
                      outputs := template.outputs, cacheEnable := template.cacheEnable,
                      cacheUserDefined := template.cacheUserDefined, cacheUserDir := template.cacheUserDir,
                      scriptType := template.scriptType, postBuild := template.postBuild);
    var targets := moduleBuild.targets;
    var i := 0;
    while i < |targets|
      invariant 0 <= i <= |targets|
      invariant TargetOf(targets, serviceName, serviceModule) == TargetOf(targets[i..], serviceName, serviceModule)
    {
      var serviceConfig := targets[i];
      assert targets[i..][0] == serviceConfig && targets[i..][1..] == targets[i + 1..];
      if serviceConfig.serviceName == serviceName && serviceConfig.serviceModule == serviceModule {
        filled := filled.(repos := serviceConfig.repos, envs := store.mergeBuildEnvs(filled.envs, serviceConfig.envs));
        return filled, None;
      }
      i := i + 1;
    }
    err := None;
  }

  /** The build an entry names, looked up by name and filled in for the entry's service module. */
  function StoredBuild(store: BuildStore, b: ServiceAndBuild): Result<BuildInfo>
  {
    if b.buildName !in store.builds then Err("find build: " + b.buildName + " error")
    else FilledBuild(store.builds[b.buildName], b.serviceName, b.serviceModule, store)
  }

  /** The lookup of an entry's build by name, then fillBuildDetail for the entry's module. */
  method FindBuild(store: BuildStore, b: ServiceAndBuild) returns (r: Result<BuildInfo>)
    ensures r == StoredBuild(store, b)
  {
    if b.buildName !in store.builds {
      return Err("find build: " + b.buildName + " error");
    }
    var filled, err := FillBuildDetail(store.builds[b.buildName], b.serviceName, b.serviceModule, store);
    if err.Some? {
      return Err(err.value);
    }
    return Ok(filled);
  }

  // =====================================================================
  // UpdateWithLatestSetting

  /** How the user's selection is indexed: "service++module". */
  function UserBuildKey(b: ServiceAndBuild): string
  {
    b.serviceName + "++" + b.serviceModule
  }

  /** The user's entries by key; of two entries with one key the later wins. */
  function UserBuildMap(builds: seq<ServiceAndBuild>): (m: map<string, ServiceAndBuild>)
    ensures forall b :: b in builds ==> UserBuildKey(b) in m
    ensures forall key :: key in m ==> UserBuildKey(m[key]) == key && m[key] in builds
  {
    if |builds| == 0 then map[]
    else
      var last := builds[|builds| - 1];
      var m := UserBuildMap(builds[..|builds| - 1]);
      assert forall b :: b in builds ==> b in builds[..|builds| - 1] || b == last;
      m[UserBuildKey(last) := last]
  }

  lemma UserBuildMapSnoc(builds: seq<ServiceAndBuild>, i: nat)
    requires i < |builds|
    ensures UserBuildMap(builds[..i + 1]) == UserBuildMap(builds[..i])[UserBuildKey(builds[i]) := builds[i]]
  {
    assert builds[..i + 1][..i] == builds[..i];
  }

  predicate HasTarget(targets: seq<BuildTarget>, serviceName: string, serviceModule: string)
  {
    exists t :: t in targets && t.serviceName == serviceName && t.serviceModule == serviceModule
  }

  /**
   * A latest entry the user selected: first refreshed from its saved
   * build when the build is configured for the entry's service module,
   * then merged with the user's parameters and repositories.
   */
  function RefreshedBuild(latest: ServiceAndBuild, user: ServiceAndBuild, info: BuildInfo): (r: ServiceAndBuild)
    ensures r.serviceName == latest.serviceName && r.serviceModule == latest.serviceModule
    ensures r.buildName == latest.buildName && r.imageName == latest.imageName
    ensures r.image == latest.image && r.package == latest.package
  {
    var l := if HasTarget(info.targets, latest.serviceName, latest.serviceModule)
      then latest.(repos := MergedRepos(info.repos, latest.repos),
                   keyVals := RenderedKeyVals(latest.keyVals, info.envs))
      else latest;
    ServiceAndBuild(l.serviceName, l.serviceModule, l.buildName, l.imageName, l.image, l.package,
                    RenderedKeyVals(user.keyVals, l.keyVals), MergedRepos(l.repos, user.repos))
  }

  /**
   * A latest entry survives when the user selected its service module and
   * its build is found and filled in for the module.
   */
  function RefreshWith(users: map<string, ServiceAndBuild>, store: BuildStore)
    : ServiceAndBuild -> Option<ServiceAndBuild>
  {
    b => if UserBuildKey(b) in users && StoredBuild(store, b).Ok?
      then Some(RefreshedBuild(b, users[UserBuildKey(b)], StoredBuild(store, b).value))
      else None
  }

  function RefreshedBuilds(latest: seq<ServiceAndBuild>, user: seq<ServiceAndBuild>, store: BuildStore)
    : seq<ServiceAndBuild>
  {
    FilterMap(latest, RefreshWith(UserBuildMap(user), store))
  }

  /**
   * The refreshed selection follows the latest workflow's order and holds
   * exactly the latest entries the user had selected (by service module)
   * whose build exists and can be filled in for the module; each is
   * refreshed from its build as filled in for its own module and takes
   * the user's parameter values over the latest ones, the later of two
   * user entries for one module winning.
   */
  lemma RefreshedBuildsSelected(latest: seq<ServiceAndBuild>, user: seq<ServiceAndBuild>, store: BuildStore)
    ensures var r := RefreshedBuilds(latest, user, store);
      var users := UserBuildMap(user);
      var idx := KeptIndices(latest, RefreshWith(users, store));
      |r| == |idx|
      && (forall k, l :: 0 <= k < l < |idx| ==> idx[k] < idx[l])
      && (forall k :: 0 <= k < |idx| ==>
            (idx[k] < |latest| && UserBuildKey(latest[idx[k]]) in users && StoredBuild(store, latest[idx[k]]).Ok?
             && r[k] == RefreshedBuild(latest[idx[k]], users[UserBuildKey(latest[idx[k]])],
                                       StoredBuild(store, latest[idx[k]]).value)))
      && (forall i :: (0 <= i < |latest| && StoredBuild(store, latest[i]).Ok?
            && exists u :: u in user && UserBuildKey(u) == UserBuildKey(latest[i])) ==> i in idx)
  {
    var users := UserBuildMap(user);
    FilterMapKeeps(latest, RefreshWith(users, store));
  }

  /** The first job of the workflow with the name and kind, stage by stage. */
  function FindJob(stages: seq<Stage>, name: string, jobType: JobType): (r: Option<Job>)
    ensures r.Some? ==> r.value in AllJobs(stages) && r.value.name == name && r.value.jobType == jobType
    ensures r.None? ==> forall j :: j in AllJobs(stages) ==> !(j.name == name && j.jobType == jobType)
  {
    FirstJob(AllJobs(stages), name, jobType)
  }

  function FirstJob(jobs: seq<Job>, name: string, jobType: JobType): (r: Option<Job>)
    ensures r.Some? ==> r.value in jobs && r.value.name == name && r.value.jobType == jobType
    ensures r.None? ==> forall j :: j in jobs ==> !(j.name == name && j.jobType == jobType)
  {
    if |jobs| == 0 then None
    else if jobs[0].name == name && jobs[0].jobType == jobType then Some(jobs[0])
    else FirstJob(jobs[1..], name, jobType)
  }

  // =====================================================================
  // ToJobs

  /** The task key: "job.service.module". */
  function TaskKey(jobName: string, serviceName: string, serviceModule: string): string
  {
    jobName + "." + serviceName + "." + serviceModule
  }

  /** Within one job, service modules whose service names lack '.' get different task keys. */
  lemma TaskKeyInjective(jobName: string, s1: string, m1: string, s2: string, m2: string)
    requires '.' !in s1 && '.' !in s2
    requires TaskKey(jobName, s1, m1) == TaskKey(jobName, s2, m2)
    ensures s1 == s2 && m1 == m2
  {
    var p := jobName + ".";
    assert TaskKey(jobName, s1, m1) == p + (s1 + ['.'] + m1);
    assert TaskKey(jobName, s2, m2) == p + (s2 + ['.'] + m2);
    assert s1 + ['.'] + m1 == TaskKey(jobName, s1, m1)[|p|..];
    SeparatedPairInjective('.', s1, m1, s2, m2);
  }

  /** The built image: "addr/[namespace/]tag", without a leading http:// or https://. */
  function BuildImage(reg: Registry, imageTag: string): string
  {
    var raw := if |reg.namespace| > 0 then reg.regAddr + "/" + reg.namespace + "/" + imageTag
               else reg.regAddr + "/" + imageTag;
    TrimPrefix(TrimPrefix(raw, "http://"), "https://")
  }

  /** The cache a build task uses. */
  datatype CacheSetting = CacheSetting(enable: bool, medium: CacheMedium, userDefined: bool, userDir: string)

  /**
   * A VM build uses its own cache settings; any other uses the cluster's
   * cache medium, is disabled when the cluster has none, and renders the
   * user cache directory with the job's variables when enabled.
   */
  function CacheOf(info: BuildInfo, cluster: ClusterCache, envs: seq<KeyVal>): (c: CacheSetting)
    ensures info.infrastructure == VMInfrastructure ==> c.medium == NoMedium
    ensures info.infrastructure != VMInfrastructure && cluster.mediumType == NoMedium ==> !c.enable
    ensures c.enable ==> info.cacheEnable
    ensures info.infrastructure != VMInfrastructure && c.enable ==> c.userDir == Expand(info.cacheUserDir, envs)
  {
    if info.infrastructure == VMInfrastructure then
      CacheSetting(info.cacheEnable, NoMedium, info.cacheUserDefined, info.cacheUserDir)
    else if cluster.mediumType == NoMedium then
      CacheSetting(false, NoMedium, false, "")
    else
      CacheSetting(info.cacheEnable, cluster.mediumType, info.cacheUserDefined,
                   if info.cacheEnable then Expand(info.cacheUserDir, envs) else info.cacheUserDir)
  }

  /** Object caching: the download-archive and tar-archive steps appear. */
  predicate ObjectCache(c: CacheSetting)
  {
    c.enable && c.medium == ObjectMedium
  }

  function CacheDir(c: CacheSetting): string
  {
    if c.userDefined then c.userDir else "/workspace"
  }

  /** The script step's name suffix and kind; an unknown script type gives an unnamed, untyped step. */
  function ScriptStep(serviceName: string, t: ScriptType): (string, StepType)
  {
    match t
    case ScriptShell => (serviceName + "-shell", StepShell)
    case ScriptEmpty => (serviceName + "-shell", StepShell)
    case ScriptBatchFile => (serviceName + "-batchfile", StepBatchFile)
    case ScriptPowerShell => (serviceName + "-powershell", StepPowerShell)
    case ScriptOther(_) => ("", StepUnset)
  }

  predicate HasDockerBuild(post: Option<PostBuild>) { post.Some? && post.value.hasDockerBuild }
  predicate HasFileArchive(post: Option<PostBuild>) { post.Some? && post.value.fileLocation != "" }
  predicate HasObjectStorage(post: Option<PostBuild>)
  {
    post.Some? && post.value.objectStorageUpload.Some? && post.value.objectStorageUpload.value.enabled
  }
  predicate HasPostScript(post: Option<PostBuild>) { post.Some? && post.value.scripts != "" }

  /** The steps of one build task, in the order the build runs them. */
  function BuildSteps(serviceName: string, serviceModule: string, workflowName: string, taskName: string,
                      cache: CacheSetting, repos: seq<Repository>, scriptType: ScriptType,
                      post: Option<PostBuild>, image: string, imageTag: string, pkgFile: string)
    : seq<StepTask>
  {
    OpeningSteps(serviceName, serviceModule, workflowName, taskName, cache, repos, scriptType)
    + ClosingSteps(serviceName, serviceModule, workflowName, taskName, cache, repos, post, image, imageTag, pkgFile)
  }

  /** Tool install, cache download, checkout, the debug points around the build script. */
  function OpeningSteps(serviceName: string, serviceModule: string, workflowName: string, taskName: string,
                        cache: CacheSetting, repos: seq<Repository>, scriptType: ScriptType): seq<StepTask>
  {
    var script := ScriptStep(serviceName, scriptType);
    [StepTask(serviceName + "-tool-install", taskName, StepTools, NoStepSpec)]
    + Opt(ObjectCache(cache), StepTask(serviceName + "-download-archive", taskName, StepDownloadArchive,
                                       DownloadArchiveSpec(CacheObjectPath(workflowName, serviceName, serviceModule),
                                                           CacheDir(cache))))
    + [StepTask(serviceName + "-git", taskName, StepGit, GitSpec(repos)),
       StepTask(serviceName + "-debug_before", taskName, StepDebugBefore, NoStepSpec),
       StepTask(script.0, taskName, script.1, NoStepSpec),
       StepTask(serviceName + "-debug_after", taskName, StepDebugAfter, NoStepSpec)]
  }

  /** Image build, cache upload, package archive, object storage upload and post script, each optional. */
  function ClosingSteps(serviceName: string, serviceModule: string, workflowName: string, taskName: string,
                        cache: CacheSetting, repos: seq<Repository>, post: Option<PostBuild>,
                        image: string, imageTag: string, pkgFile: string): seq<StepTask>
  {
    var fileLocation := if post.Some? then post.value.fileLocation else "";
    var storageID := if HasObjectStorage(post) then post.value.objectStorageUpload.value.objectStorageID else "";
    Opt(HasDockerBuild(post), StepTask(serviceName + "-docker-build", taskName, StepDockerBuild,
                                       DockerBuildSpec(image, imageTag, repos)))
    + Opt(ObjectCache(cache), StepTask(serviceName + "-tar-archive", taskName, StepTarArchive,
                                       TarArchiveSpec(CacheObjectPath(workflowName, serviceName, serviceModule),
                                                      CacheDir(cache))))
    + Opt(HasFileArchive(post), StepTask(serviceName + "-pkgfile-archive", taskName, StepArchive,
                                         ArchiveSpec(fileLocation, pkgFile)))
    + Opt(HasObjectStorage(post), StepTask(serviceName + "-object-storage", taskName, StepArchive,
                                           ObjectStorageSpec(storageID)))
    + Opt(HasPostScript(post), StepTask(serviceName + "-post-shell", taskName, StepShell, NoStepSpec))
  }

  /**
   * Where a step stands in a build task, read from its kind: the tool
   * install, the cache download, the checkout, the debug point before
   * the script, the script, the debug point after it, the image build,
   * the cache upload, the package archive, the object storage upload
   * and the post script (the only shell step named "-post-shell").
   */
  function StepRank(st: StepTask, serviceName: string): nat
  {
    match st.stepType
    case StepTools => 0
    case StepDownloadArchive => 1
    case StepGit => 2
    case StepDebugBefore => 3
    case StepDebugAfter => 5
    case StepDockerBuild => 6
    case StepTarArchive => 7
    case StepArchive => if st.spec.ObjectStorageSpec? then 9 else 8
    case StepShell => if st.name == serviceName + "-post-shell" then 10 else 4
    case _ => 4
  }

  function Ranks(steps: seq<StepTask>, serviceName: string): (r: seq<nat>)
    ensures |r| == |steps|
    ensures forall k :: 0 <= k < |steps| ==> r[k] == StepRank(steps[k], serviceName)
  {
    seq(|steps|, k requires 0 <= k < |steps| => StepRank(steps[k], serviceName))
  }

  lemma RanksAppend(a: seq<StepTask>, b: seq<StepTask>, serviceName: string)
    ensures Ranks(a + b, serviceName) == Ranks(a, serviceName) + Ranks(b, serviceName)
  {
  }

  function Opt(c: bool, st: StepTask): seq<StepTask>
  {
    if c then [st] else []
  }

  function OptRank(c: bool, r: nat): seq<nat>
  {
    if c then [r] else []
  }

  lemma RankedOpt(c: bool, st: StepTask, serviceName: string, r: nat)
    requires StepRank(st, serviceName) == r
    ensures Ranks(Opt(c, st), serviceName) == OptRank(c, r)
  {
  }


  /** The ranks of a build task's steps when all optional steps are decided. */
  function ExpectedRanks(objectCache: bool, docker: bool, archive: bool, storage: bool, postShell: bool): seq<nat>
  {
    OpeningRanksOf(objectCache) + ClosingRanksOf(objectCache, docker, archive, storage, postShell)
  }

  function OpeningRanksOf(objectCache: bool): seq<nat>
  {
    [0] + OptRank(objectCache, 1) + [2, 3, 4, 5]
  }

  function ClosingRanksOf(objectCache: bool, docker: bool, archive: bool, storage: bool, postShell: bool): seq<nat>
  {
    OptRank(docker, 6) + OptRank(objectCache, 7) + OptRank(archive, 8) + OptRank(storage, 9) + OptRank(postShell, 10)
  }

  predicate Increasing(s: seq<nat>)
  {
    forall k, l :: 0 <= k < l < |s| ==> s[k] < s[l]
  }

  /** Two increasing runs, the second starting above where the first ends, make one. */
  lemma IncreasingAppend(a: seq<nat>, b: seq<nat>)
    requires Increasing(a) && Increasing(b)
    requires |a| > 0 && |b| > 0 ==> a[|a| - 1] < b[0]
    ensures Increasing(a + b)
  {
    var s := a + b;
    forall k, l | 0 <= k < l < |s|
      ensures s[k] < s[l]
    {
      if l < |a| {
        assert s[k] == a[k] && s[l] == a[l];
      } else if k >= |a| {
        assert s[k] == b[k - |a|] && s[l] == b[l - |a|];
      } else {
        assert s[k] == a[k] <= a[|a| - 1];
        assert b[0] <= b[l - |a|] == s[l];
      }
    }
  }

  /** Every rank of the run lies above `low` and at most `high`. */
  predicate Bounded(s: seq<nat>, low: int, high: int)
  {
    forall k :: 0 <= k < |s| ==> low < s[k] <= high
  }

  /** An increasing run above `low` and below `r`, optionally extended by `r`, stays increasing, above `low` and at most `r`. */
  lemma IncreasingAppendOpt(a: seq<nat>, c: bool, low: int, r: nat)
    requires Increasing(a) && low < r && Bounded(a, low, r - 1)
    ensures Increasing(a + OptRank(c, r)) && Bounded(a + OptRank(c, r), low, r)
  {
    IncreasingAppend(a, OptRank(c, r));
  }

  lemma OpeningRanksIncreasing(objectCache: bool)
    ensures var opening := OpeningRanksOf(objectCache);
      Increasing(opening) && opening[|opening| - 1] == 5
  {
    IncreasingAppendOpt([0], objectCache, -1, 1);
    IncreasingAppend([0] + OptRank(objectCache, 1), [2, 3, 4, 5]);
  }

  /** The closing ranks up to the archive step. */
  lemma ClosingRanksUpToArchive(objectCache: bool, docker: bool, archive: bool)
    ensures var e := OptRank(docker, 6) + OptRank(objectCache, 7) + OptRank(archive, 8);
      Increasing(e) && Bounded(e, 5, 8)
  {
    var e1 := OptRank(docker, 6);
    IncreasingAppendOpt([], docker, 5, 6);
    assert [] + OptRank(docker, 6) == e1;
    var e2 := e1 + OptRank(objectCache, 7);
    IncreasingAppendOpt(e1, objectCache, 5, 7);
    IncreasingAppendOpt(e2, archive, 5, 8);
  }

  lemma ClosingRanksIncreasing(objectCache: bool, docker: bool, archive: bool, storage: bool, postShell: bool)
    ensures var closing := ClosingRanksOf(objectCache, docker, archive, storage, postShell);
      Increasing(closing) && Bounded(closing, 5, 10)
  {
    var e3 := OptRank(docker, 6) + OptRank(objectCache, 7) + OptRank(archive, 8);
    ClosingRanksUpToArchive(objectCache, docker, archive);
    var e4 := e3 + OptRank(storage, 9);
    IncreasingAppendOpt(e3, storage, 5, 9);
    IncreasingAppendOpt(e4, postShell, 5, 10);
  }

  lemma ExpectedRanksIncreasing(objectCache: bool, docker: bool, archive: bool, storage: bool, postShell: bool)
    ensures Increasing(ExpectedRanks(objectCache, docker, archive, storage, postShell))
  {
    OpeningRanksIncreasing(objectCache);
    ClosingRanksIncreasing(objectCache, docker, archive, storage, postShell);
    IncreasingAppend(OpeningRanksOf(objectCache), ClosingRanksOf(objectCache, docker, archive, storage, postShell));
  }

  /** The membership facts of ExpectedRanks: 0, 2, 3, 4, 5 always, the others when their condition holds. */
  lemma ExpectedRanksMembers(objectCache: bool, docker: bool, archive: bool, storage: bool, postShell: bool)
    ensures var e := ExpectedRanks(objectCache, docker, archive, storage, postShell);
      e[0] == 0 && 2 in e && 3 in e && 4 in e && 5 in e
      && (1 in e <==> objectCache) && (6 in e <==> docker) && (7 in e <==> objectCache)
      && (8 in e <==> archive) && (9 in e <==> storage) && (10 in e <==> postShell)
  {
    OpeningMembers(objectCache);
    ClosingMembers(objectCache, docker, archive, storage, postShell);
  }

  lemma OpeningMembers(objectCache: bool)
    ensures var e := OpeningRanksOf(objectCache);
      e[0] == 0 && 2 in e && 3 in e && 4 in e && 5 in e && (1 in e <==> objectCache)
      && 6 !in e && 7 !in e && 8 !in e && 9 !in e && 10 !in e
  {
  }

  lemma ClosingMembers(objectCache: bool, docker: bool, archive: bool, storage: bool, postShell: bool)
    ensures var e := ClosingRanksOf(objectCache, docker, archive, storage, postShell);
      1 !in e && (6 in e <==> docker) && (7 in e <==> objectCache)
      && (8 in e <==> archive) && (9 in e <==> storage) && (10 in e <==> postShell)
  {
    var e := ClosingRanksOf(objectCache, docker, archive, storage, postShell);
    forall x: nat
      ensures x in e <==> (x == 6 && docker) || (x == 7 && objectCache) || (x == 8 && archive)
                          || (x == 9 && storage) || (x == 10 && postShell)
    {
      OptRankContains(docker, 6, x);
      OptRankContains(objectCache, 7, x);
      OptRankContains(archive, 8, x);
      OptRankContains(storage, 9, x);
      OptRankContains(postShell, 10, x);
    }
  }

  lemma OptRankContains(c: bool, r: nat, x: nat)
    ensures x in OptRank(c, r) <==> c && x == r
  {
  }

  /** The opening steps rank 0, 1 when caching to object storage, then 2, 3, 4, 5. */
  lemma OpeningRanks(serviceName: string, serviceModule: string, workflowName: string, taskName: string,
                     cache: CacheSetting, repos: seq<Repository>, scriptType: ScriptType)
    ensures Ranks(OpeningSteps(serviceName, serviceModule, workflowName, taskName, cache, repos, scriptType),
                  serviceName)
         == OpeningRanksOf(ObjectCache(cache))
  {
    var script := ScriptStep(serviceName, scriptType);
    var objectPath := CacheObjectPath(workflowName, serviceName, serviceModule);
    var p0 := [StepTask(serviceName + "-tool-install", taskName, StepTools, NoStepSpec)];
    var download := StepTask(serviceName + "-download-archive", taskName, StepDownloadArchive,
                             DownloadArchiveSpec(objectPath, CacheDir(cache)));
    var p1 := Opt(ObjectCache(cache), download);
    var mid := [StepTask(serviceName + "-git", taskName, StepGit, GitSpec(repos)),
                StepTask(serviceName + "-debug_before", taskName, StepDebugBefore, NoStepSpec),
                StepTask(script.0, taskName, script.1, NoStepSpec),
                StepTask(serviceName + "-debug_after", taskName, StepDebugAfter, NoStepSpec)];
    RankedOpt(ObjectCache(cache), download, serviceName, 1);
    MiddleRanks(serviceName, taskName, repos, scriptType);
    RanksAppend(p0, p1, serviceName);
    RanksAppend(p0 + p1, mid, serviceName);
  }

  /** Checkout, the debug points and the script between them rank 2, 3, 4, 5. */
  lemma MiddleRanks(serviceName: string, taskName: string, repos: seq<Repository>, scriptType: ScriptType)
    ensures var script := ScriptStep(serviceName, scriptType);
      Ranks([StepTask(serviceName + "-git", taskName, StepGit, GitSpec(repos)),
             StepTask(serviceName + "-debug_before", taskName, StepDebugBefore, NoStepSpec),
             StepTask(script.0, taskName, script.1, NoStepSpec),
             StepTask(serviceName + "-debug_after", taskName, StepDebugAfter, NoStepSpec)], serviceName)
      == [2, 3, 4, 5]
  {
    ScriptRank(serviceName, scriptType, taskName);
  }

  /** Whatever the script type, the script step ranks between debug_before and debug_after. */
  lemma ScriptRank(serviceName: string, scriptType: ScriptType, taskName: string)
    ensures var script := ScriptStep(serviceName, scriptType);
      StepRank(StepTask(script.0, taskName, script.1, NoStepSpec), serviceName) == 4
  {
    assert |serviceName + "-shell"| != |serviceName + "-post-shell"|;
  }


  /** The closing steps rank 6 to 10, each present exactly when its condition holds. */
  lemma ClosingRanks(serviceName: string, serviceModule: string, workflowName: string, taskName: string,
                     cache: CacheSetting, repos: seq<Repository>, post: Option<PostBuild>,
                     image: string, imageTag: string, pkgFile: string)
    ensures Ranks(ClosingSteps(serviceName, serviceModule, workflowName, taskName, cache, repos, post,
                               image, imageTag, pkgFile), serviceName)
         == ClosingRanksOf(ObjectCache(cache), HasDockerBuild(post), HasFileArchive(post),
                           HasObjectStorage(post), HasPostScript(post))
  {
    var objectPath := CacheObjectPath(workflowName, serviceName, serviceModule);
    var fileLocation := if post.Some? then post.value.fileLocation else "";
    var storageID := if HasObjectStorage(post) then post.value.objectStorageUpload.value.objectStorageID else "";
    var docker := StepTask(serviceName + "-docker-build", taskName, StepDockerBuild,
                           DockerBuildSpec(image, imageTag, repos));
    var tar := StepTask(serviceName + "-tar-archive", taskName, StepTarArchive,
                        TarArchiveSpec(objectPath, CacheDir(cache)));
    var archive := StepTask(serviceName + "-pkgfile-archive", taskName, StepArchive, ArchiveSpec(fileLocation, pkgFile));
    var upload := StepTask(serviceName + "-object-storage", taskName, StepArchive, ObjectStorageSpec(storageID));
    var postShell := StepTask(serviceName + "-post-shell", taskName, StepShell, NoStepSpec);
    var p6 := Opt(HasDockerBuild(post), docker);
    var p7 := Opt(ObjectCache(cache), tar);
    var p8 := Opt(HasFileArchive(post), archive);
    var p9 := Opt(HasObjectStorage(post), upload);
    var p10 := Opt(HasPostScript(post), postShell);
    RankedOpt(HasDockerBuild(post), docker, serviceName, 6);
    RankedOpt(ObjectCache(cache), tar, serviceName, 7);
    RankedOpt(HasFileArchive(post), archive, serviceName, 8);
    RankedOpt(HasObjectStorage(post), upload, serviceName, 9);
    RankedOpt(HasPostScript(post), postShell, serviceName, 10);
    RanksAppend(p6, p7, serviceName);
    RanksAppend(p6 + p7, p8, serviceName);
    RanksAppend(p6 + p7 + p8, p9, serviceName);
    RanksAppend(p6 + p7 + p8 + p9, p10, serviceName);
  }

  predicate BelongTo(steps: seq<StepTask>, taskName: string)
  {
    forall k :: 0 <= k < |steps| ==> steps[k].jobName == taskName
  }

  lemma BelongAppend(a: seq<StepTask>, b: seq<StepTask>, taskName: string)
    requires BelongTo(a, taskName) && BelongTo(b, taskName)
    ensures BelongTo(a + b, taskName)
  {
    forall k | 0 <= k < |a + b|
      ensures (a + b)[k].jobName == taskName
    {
      if k < |a| {
        assert (a + b)[k] == a[k];
      } else {
        assert (a + b)[k] == b[k - |a|];
      }
    }
  }

  lemma OpeningStepsBelong(serviceName: string, serviceModule: string, workflowName: string,
      taskName: string, cache: CacheSetting, repos: seq<Repository>, scriptType: ScriptType)
    ensures BelongTo(OpeningSteps(serviceName, serviceModule, workflowName, taskName, cache, repos, scriptType), taskName)
  {
    var script := ScriptStep(serviceName, scriptType);
    var p0 := [StepTask(serviceName + "-tool-install", taskName, StepTools, NoStepSpec)];
    var p1 := Opt(ObjectCache(cache), StepTask(serviceName + "-download-archive", taskName, StepDownloadArchive,
                                               DownloadArchiveSpec(CacheObjectPath(workflowName, serviceName, serviceModule),
                                                                   CacheDir(cache))));
    var mid := [StepTask(serviceName + "-git", taskName, StepGit, GitSpec(repos)),
                StepTask(serviceName + "-debug_before", taskName, StepDebugBefore, NoStepSpec),
                StepTask(script.0, taskName, script.1, NoStepSpec),
                StepTask(serviceName + "-debug_after", taskName, StepDebugAfter, NoStepSpec)];
    BelongAppend(p0, p1, taskName);
    BelongAppend(p0 + p1, mid, taskName);
  }

  lemma ClosingStepsBelong(serviceName: string, serviceModule: string, workflowName: string,
      taskName: string, cache: CacheSetting, repos: seq<Repository>,
      post: Option<PostBuild>, image: string, imageTag: string, pkgFile: string)
    ensures BelongTo(ClosingSteps(serviceName, serviceModule, workflowName, taskName, cache, repos,
                                  post, image, imageTag, pkgFile), taskName)
  {
    var objectPath := CacheObjectPath(workflowName, serviceName, serviceModule);
    var fileLocation := if post.Some? then post.value.fileLocation else "";
    var storageID := if HasObjectStorage(post) then post.value.objectStorageUpload.value.objectStorageID else "";
    var p6 := Opt(HasDockerBuild(post), StepTask(serviceName + "-docker-build", taskName, StepDockerBuild,
                                                 DockerBuildSpec(image, imageTag, repos)));
    var p7 := Opt(ObjectCache(cache), StepTask(serviceName + "-tar-archive", taskName, StepTarArchive,
                                               TarArchiveSpec(objectPath, CacheDir(cache))));
    var p8 := Opt(HasFileArchive(post), StepTask(serviceName + "-pkgfile-archive", taskName, StepArchive,
                                                 ArchiveSpec(fileLocation, pkgFile)));
    var p9 := Opt(HasObjectStorage(post), StepTask(serviceName + "-object-storage", taskName, StepArchive,
                                                   ObjectStorageSpec(storageID)));
    var p10 := Opt(HasPostScript(post), StepTask(serviceName + "-post-shell", taskName, StepShell, NoStepSpec));
    BelongAppend(p6, p7, taskName);
    BelongAppend(p6 + p7, p8, taskName);
    BelongAppend(p6 + p7 + p8, p9, taskName);
    BelongAppend(p6 + p7 + p8 + p9, p10, taskName);
  }

  /** Every step of a build task belongs to the task. */
  lemma BuildStepsBelong(serviceName: string, serviceModule: string, workflowName: string,
      taskName: string, cache: CacheSetting, repos: seq<Repository>, scriptType: ScriptType,
      post: Option<PostBuild>, image: string, imageTag: string, pkgFile: string)
    ensures BelongTo(BuildSteps(serviceName, serviceModule, workflowName, taskName, cache, repos,
                                scriptType, post, image, imageTag, pkgFile), taskName)
  {
    OpeningStepsBelong(serviceName, serviceModule, workflowName, taskName, cache, repos, scriptType);
    ClosingStepsBelong(serviceName, serviceModule, workflowName, taskName, cache, repos, post, image, imageTag, pkgFile);
    BelongAppend(OpeningSteps(serviceName, serviceModule, workflowName, taskName, cache, repos, scriptType),
                 ClosingSteps(serviceName, serviceModule, workflowName, taskName, cache, repos, post, image, imageTag, pkgFile),
                 taskName);
  }

  /**
   * The steps of a build task run in the fixed order tool-install,
   * download-archive, git, debug_before, script, debug_after,
   * docker-build, tar-archive, pkgfile-archive, object-storage,
   * post-shell (the ranks 0 to 10 of StepRank); the optional ones appear
   * exactly when their condition holds, and every step belongs to the
   * task.
   */
  lemma BuildStepsOrdered(serviceName: string, serviceModule: string, workflowName: string,
      taskName: string, cache: CacheSetting, repos: seq<Repository>, scriptType: ScriptType,
      post: Option<PostBuild>, image: string, imageTag: string, pkgFile: string)
    ensures var steps := BuildSteps(serviceName, serviceModule, workflowName, taskName, cache, repos,
                                    scriptType, post, image, imageTag, pkgFile);
      var ranks := Ranks(steps, serviceName);
      Increasing(ranks) && BelongTo(steps, taskName)
      && ranks[0] == 0 && 2 in ranks && 3 in ranks && 4 in ranks && 5 in ranks
      && (1 in ranks <==> ObjectCache(cache))
      && (6 in ranks <==> HasDockerBuild(post))
      && (7 in ranks <==> ObjectCache(cache))
      && (8 in ranks <==> HasFileArchive(post))
      && (9 in ranks <==> HasObjectStorage(post))
      && (10 in ranks <==> HasPostScript(post))
  {
    var oc := ObjectCache(cache);
    OpeningRanks(serviceName, serviceModule, workflowName, taskName, cache, repos, scriptType);
    ClosingRanks(serviceName, serviceModule, workflowName, taskName, cache, repos, post, image, imageTag, pkgFile);
    RanksAppend(OpeningSteps(serviceName, serviceModule, workflowName, taskName, cache, repos, scriptType),
                ClosingSteps(serviceName, serviceModule, workflowName, taskName, cache, repos, post,
                             image, imageTag, pkgFile), serviceName);
    ExpectedRanksIncreasing(oc, HasDockerBuild(post), HasFileArchive(post), HasObjectStorage(post), HasPostScript(post));
    ExpectedRanksMembers(oc, HasDockerBuild(post), HasFileArchive(post), HasObjectStorage(post), HasPostScript(post));
    BuildStepsBelong(serviceName, serviceModule, workflowName, taskName, cache, repos,
                     scriptType, post, image, imageTag, pkgFile);
  }

  /** What compiling one entry gives: its task and the entry as the job now holds it, or an error. */
  datatype Compiled =
    | Compiled(task: JobTask, build: ServiceAndBuild)
    | CompileFailed(msg: string, build: ServiceAndBuild)

  function TaskJobInfo(jobName: string, b: ServiceAndBuild): map<string, string>
  {
    map["service_name" := b.serviceName, "service_module" := b.serviceModule, JobNameKey := jobName]
  }

  /**
   * Compiling one selected entry of a build job. Lookups fail in the
   * order build, its template, base image, registry namespace listing, cluster (not for VM builds), cache object
   * storage (object caching only), upload object storage; by the last of
   * these the entry has already been given its image and package output
   * references and its repositories have been rendered in place.
   */
  function CompileBuild(jobName: string, workflowName: string, reg: Registry, b: ServiceAndBuild,
                        env: BuildEnvironment): (c: Compiled)
  {
    var imageTag := env.releaseCandidate(b.repos, b.serviceModule, b.imageName, "image");
    var image := BuildImage(reg, imageTag);
    var pkgFile := env.releaseCandidate(b.repos, b.serviceModule, b.imageName, "tar") + ".tar.gz";
    var found := StoredBuild(env.store, b);
    if found.Err? then CompileFailed(found.msg, b)
    else CompileFound(jobName, workflowName, b, found.value, image, imageTag, pkgFile, env)
  }

  /** Compiling an entry once its build is found and filled in for the entry's module. */
  function CompileFound(jobName: string, workflowName: string, b: ServiceAndBuild, info: BuildInfo,
                        image: string, imageTag: string, pkgFile: string, env: BuildEnvironment): Compiled
  {
    if info.imageID !in env.basicImages then CompileFailed("find base image: " + info.imageID + " error", b)
    else if env.registryListError.Some? then CompileFailed(env.registryListError.value, b)
    else
      var key := TaskKey(jobName, b.serviceName, b.serviceModule);
      var taskName := env.jobNameFormat(b.serviceName + "-" + b.serviceModule + "-" + jobName);
      var envs := RenderedKeyVals(b.keyVals, info.envs) + env.buildVariables(b, image, pkgFile);
      var isVM := info.infrastructure == VMInfrastructure;
      if !isVM && info.clusterID !in env.clusters then
        CompileFailed("find cluster: " + info.clusterID + " error", b)
      else
        var cluster := if isVM then ClusterCache(NoMedium, "") else env.clusters[info.clusterID];
        var cache := CacheOf(info, cluster, envs);
        if !isVM && cache.enable && cache.medium == ObjectMedium && cluster.objectStorageID !in env.storages then
          CompileFailed("find cache s3 storage: " + cluster.objectStorageID + " error", b)
        else
          var repos := RenderedSlots(b.repos, info.repos, envs);
          var nb := b.(image := JobOutputKey(key, ImageKey), package := JobOutputKey(key, PkgFileKey),
                       repos := RenderedAfter(b.repos, info.repos, envs));
          var post := info.postBuild;
          if HasObjectStorage(post) && post.value.objectStorageUpload.value.objectStorageID !in env.storages then
            CompileFailed("find object storage: " + post.value.objectStorageUpload.value.objectStorageID + " failed", nb)
          else
            var steps := BuildSteps(b.serviceName, b.serviceModule, workflowName, taskName, cache, repos,
                                    info.scriptType, post, image, imageTag, pkgFile);
            Compiled(JobTask(taskName, key, TaskJobInfo(jobName, b), JobZadigBuild, info.timeout,
                             WithRequiredOutputs(info.outputs, [ImageKey, ImageTagKey, PkgFileKey]), steps), nb)
  }

  /**
   * Compiling an entry changes only its image, package and repository
   * checkout state; once compiled, its image and package are references
   * to the outputs of its task.
   */
  lemma CompileBuildKeepsEntry(jobName: string, workflowName: string, reg: Registry, b: ServiceAndBuild,
                               env: BuildEnvironment)
    ensures var c := CompileBuild(jobName, workflowName, reg, b, env);
      c.build == b.(image := c.build.image, package := c.build.package, repos := c.build.repos)
      && |c.build.repos| == |b.repos|
      && (c.Compiled? ==>
            c.task.key == TaskKey(jobName, b.serviceName, b.serviceModule)
            && c.build.image == JobOutputKey(c.task.key, ImageKey)
            && c.build.package == JobOutputKey(c.task.key, PkgFileKey))
  {
  }

  /**
   * A failed registry listing stops an entry whose build, template and
   * base image were found, with the listing's own error and the entry unchanged.
   */
  lemma CompileBuildRegistryListFails(jobName: string, workflowName: string, reg: Registry, b: ServiceAndBuild,
                                      env: BuildEnvironment)
    requires StoredBuild(env.store, b).Ok? && StoredBuild(env.store, b).value.imageID in env.basicImages
    requires env.registryListError.Some?
    ensures CompileBuild(jobName, workflowName, reg, b, env) == CompileFailed(env.registryListError.value, b)
  {
  }

  /**
   * A compiled entry's task is a build task that records the service,
   * module and job name and declares the image, image tag and package
   * outputs.
   */
  lemma CompileBuildTask(jobName: string, workflowName: string, reg: Registry, b: ServiceAndBuild,
                         env: BuildEnvironment)
    ensures var c := CompileBuild(jobName, workflowName, reg, b, env);
      c.Compiled? ==>
        c.task.jobType == JobZadigBuild
        && c.task.jobInfo == map["service_name" := b.serviceName, "service_module" := b.serviceModule,
                                 JobNameKey := jobName]
        && (forall n :: n in [ImageKey, ImageTagKey, PkgFileKey] ==> n in OutputNames(c.task.outputs))
  {
    var c := CompileBuild(jobName, workflowName, reg, b, env);
    if c.Compiled? {
      var info := StoredBuild(env.store, b).value;
      WithRequiredOutputsComplete(info.outputs, [ImageKey, ImageTagKey, PkgFileKey]);
    }
  }


  /** The tasks of a build job, the entries as the job then holds them, and the first error. */
  datatype Compilation = Compilation(tasks: seq<JobTask>, builds: seq<ServiceAndBuild>, err: Option<string>)

  /** Compiling each entry of a job in turn with `compile`, stopping at the first failure. */
  function CompileAll(builds: seq<ServiceAndBuild>, compile: ServiceAndBuild -> Compiled): (r: Compilation)
    ensures |r.builds| == |builds|
    ensures r.err.None? ==> |r.tasks| == |builds|
    ensures r.err.Some? ==> |r.tasks| < |builds|
  {
    if |builds| == 0 then Compilation([], [], None)
    else match compile(builds[0])
      case CompileFailed(msg, b) => Compilation([], [b] + builds[1..], Some(msg))
      case Compiled(t, b) =>
        var rest := CompileAll(builds[1..], compile);
        Compilation([t] + rest.tasks, [b] + rest.builds, rest.err)
  }

  function CompileWith(jobName: string, workflowName: string, reg: Registry, env: BuildEnvironment)
    : ServiceAndBuild -> Compiled
  {
    b => CompileBuild(jobName, workflowName, reg, b, env)
  }

  /**
   * Without an error, every entry compiles: task i is entry i compiled
   * and entry i is as its compilation left it. With an error, the tasks
   * are those of the entries before the failing one, that entry is as
   * its failed compilation left it, and the later entries are untouched.
   */
  lemma CompileAllPerEntry(builds: seq<ServiceAndBuild>, compile: ServiceAndBuild -> Compiled)
    ensures var r := CompileAll(builds, compile);
      (r.err.None? ==> forall i :: 0 <= i < |builds| ==>
         (compile(builds[i]).Compiled? && r.tasks[i] == compile(builds[i]).task
          && r.builds[i] == compile(builds[i]).build))
      && (r.err.Some? ==>
           var n := |r.tasks|;
           (forall i :: 0 <= i < n ==>
              (compile(builds[i]).Compiled? && r.tasks[i] == compile(builds[i]).task
               && r.builds[i] == compile(builds[i]).build))
           && compile(builds[n]).CompileFailed? && r.err == Some(compile(builds[n]).msg)
           && r.builds[n] == compile(builds[n]).build
           && r.builds[n + 1..] == builds[n + 1..])
  {
    CompileAllCompiled(builds, compile);
    CompileAllFailed(builds, compile);
  }

  /** The entries before the first failure (all of them when none fails) are compiled, in place. */
  lemma {:induction false} CompileAllCompiled(builds: seq<ServiceAndBuild>, compile: ServiceAndBuild -> Compiled)
    ensures var r := CompileAll(builds, compile);
      forall i :: 0 <= i < |r.tasks| ==>
        (compile(builds[i]).Compiled? && r.tasks[i] == compile(builds[i]).task
         && r.builds[i] == compile(builds[i]).build)
    decreases |builds|
  {
    if |builds| > 0 && compile(builds[0]).Compiled? {
      var tail := builds[1..];
      CompileAllCompiled(tail, compile);
      var r := CompileAll(builds, compile);
      var rest := CompileAll(tail, compile);
      assert r.tasks == [compile(builds[0]).task] + rest.tasks;
      assert r.builds == [compile(builds[0]).build] + rest.builds;
      forall i | 1 <= i < |r.tasks|
        ensures compile(builds[i]).Compiled? && r.tasks[i] == compile(builds[i]).task
                && r.builds[i] == compile(builds[i]).build
      {
        assert tail[i - 1] == builds[i];
        assert r.tasks[i] == rest.tasks[i - 1] && r.builds[i] == rest.builds[i - 1];
      }
    }
  }

  /** On a failure, the failing entry is as its compilation left it and the later ones are untouched. */
  lemma {:induction false} CompileAllFailed(builds: seq<ServiceAndBuild>, compile: ServiceAndBuild -> Compiled)
    ensures var r := CompileAll(builds, compile);
      r.err.Some? ==>
        var n := |r.tasks|;
        compile(builds[n]).CompileFailed? && r.err == Some(compile(builds[n]).msg)
        && r.builds[n] == compile(builds[n]).build
        && r.builds[n + 1..] == builds[n + 1..]
    decreases |builds|
  {
    if |builds| > 0 && compile(builds[0]).Compiled? {
      var tail := builds[1..];
      CompileAllFailed(tail, compile);
      var r := CompileAll(builds, compile);
      var rest := CompileAll(tail, compile);
      if r.err.Some? {
        var n := |rest.tasks|;
        assert |r.tasks| == n + 1;
        assert builds[n + 1] == tail[n];
        assert r.builds[n + 1] == rest.builds[n];
        assert r.builds[n + 2..] == rest.builds[n + 1..];
        assert builds[n + 2..] == tail[n + 1..];
      }
    } else if |builds| > 0 {
      var r := CompileAll(builds, compile);
      assert r.builds == [compile(builds[0]).build] + builds[1..];
      assert r.builds[1..] == builds[1..];
    }
  }

  /**
   * Task keys are distinct when the selected service modules are and no
   * service name contains '.'.
   */
  lemma CompileAllDistinctKeys(jobName: string, workflowName: string, reg: Registry,
                               builds: seq<ServiceAndBuild>, env: BuildEnvironment)
    requires forall i :: 0 <= i < |builds| ==> '.' !in builds[i].serviceName
    requires forall i, j :: 0 <= i < j < |builds| ==>
      (builds[i].serviceName, builds[i].serviceModule) != (builds[j].serviceName, builds[j].serviceModule)
    ensures var r := CompileAll(builds, CompileWith(jobName, workflowName, reg, env));
      r.err.None? ==> forall i, j :: 0 <= i < j < |r.tasks| ==> r.tasks[i].key != r.tasks[j].key
  {
    var compile := CompileWith(jobName, workflowName, reg, env);
    var r := CompileAll(builds, compile);
    if r.err.None? {
      CompileAllPerEntry(builds, compile);
      forall i, j | 0 <= i < j < |r.tasks|
        ensures r.tasks[i].key != r.tasks[j].key
      {
        CompileBuildKeepsEntry(jobName, workflowName, reg, builds[i], env);
        CompileBuildKeepsEntry(jobName, workflowName, reg, builds[j], env);
        if r.tasks[i].key == r.tasks[j].key {
          TaskKeyInjective(jobName, builds[i].serviceName, builds[i].serviceModule,
                           builds[j].serviceName, builds[j].serviceModule);
        }
      }
    }
  }

  /** What ToJobs returns before and after the per-entry loop. */
  function ToJobsResult(jobName: string, workflowName: string, spec: BuildJobSpec, env: BuildEnvironment)
    : (r: Compilation)
    ensures |r.builds| == |spec.serviceAndBuilds|
  {
    if spec.dockerRegistryID !in env.registries then
      Compilation([], spec.serviceAndBuilds, Some("find docker registry: " + spec.dockerRegistryID + " error"))
    else if env.defaultS3.None? then
      Compilation([], spec.serviceAndBuilds, Some("find default s3 storage error"))
    else CompileAll(spec.serviceAndBuilds, CompileWith(jobName, workflowName, env.registries[spec.dockerRegistryID], env))
  }

  // =====================================================================
  // The build job

  class BuildJob {
    var name: string
    var jobType: JobType
    var workflowName: string
    var spec: BuildJobSpec

    constructor(name: string, jobType: JobType, workflowName: string, spec: BuildJobSpec)
      ensures this.name == name && this.jobType == jobType
      ensures this.workflowName == workflowName && this.spec == spec
    {
      this.name := name;
      this.jobType := jobType;
      this.workflowName := workflowName;
      this.spec := spec;
    }

    /** Forget the user's selection unless there was only one service module to choose. */
    method ClearSelectionField()
      modifies this
      ensures spec == ClearedSelection(old(spec))
      ensures name == old(name) && jobType == old(jobType) && workflowName == old(workflowName)
    {
      if |spec.serviceAndBuilds| != 1 {
        spec := spec.(serviceAndBuilds := []);
      }
    }

    /**
     * Merge the runtime arguments of a job with the same name and kind:
     * keep the stored entries the arguments name, merged with them.
     */
    method MergeArgs(args: Job)
      modifies this
      ensures name == old(name) && jobType == old(jobType) && workflowName == old(workflowName)
      ensures !(old(name) == args.name && old(jobType) == args.jobType) ==> spec == old(spec)
      ensures old(name) == args.name && old(jobType) == args.jobType ==>
        spec == old(spec).(serviceAndBuilds :=
          MergedBuilds(old(spec).serviceAndBuilds, AsBuildSpec(args.spec).serviceAndBuilds))
    {
      if name == args.name && jobType == args.jobType {
        var merged := MergeBuildsWithArgs(spec.serviceAndBuilds, AsBuildSpec(args.spec).serviceAndBuilds);
        spec := spec.(serviceAndBuilds := merged);
      }
    }

    /**
     * Bring the job up to date with the latest saved workflow: find the
     * job of the same name and kind there (an error if there is none),
     * keep the latest entries the user had selected, refreshed from their
     * builds and merged with the user's arguments, and adopt the latest
     * registry.
     */
    method UpdateWithLatestSetting(latestStages: seq<Stage>, store: BuildStore)
      returns (err: Option<string>)
      modifies this
      ensures name == old(name) && jobType == old(jobType) && workflowName == old(workflowName)
      ensures FindJob(latestStages, old(name), old(jobType)).None? ==>
        err == Some("failed to find the original workflow: " + old(workflowName)) && spec == old(spec)
      ensures FindJob(latestStages, old(name), old(jobType)).Some? ==>
        var latest := AsBuildSpec(FindJob(latestStages, old(name), old(jobType)).value.spec);
        err.None?
        && spec == BuildJobSpec(latest.dockerRegistryID,
                                RefreshedBuilds(latest.serviceAndBuilds, old(spec).serviceAndBuilds, store))
    {
      var found := FindJob(latestStages, name, jobType);
      if found.None? {
        return Some("failed to find the original workflow: " + workflowName);
      }
      var latest := AsBuildSpec(found.value.spec);

      var userConfigured := UserConfigured(spec.serviceAndBuilds);
      var merged := RefreshBuilds(latest.serviceAndBuilds, userConfigured, store);
      spec := BuildJobSpec(latest.dockerRegistryID, merged);
      err := None;
    }

    /**
     * Compile the job: look up the registry and the default object
     * storage, then compile each selected entry in order, stopping at the
     * first failure. The entries compiled so far (and the failing one, if
     * it failed only at the upload object storage) keep the image and
     * package references and the rendered repositories ToJobs gave them.
     */
    method ToJobs(env: BuildEnvironment) returns (resp: seq<JobTask>, err: Option<string>)
      modifies this
      ensures name == old(name) && jobType == old(jobType) && workflowName == old(workflowName)
      ensures var r := ToJobsResult(old(name), old(workflowName), old(spec), env);
        resp == r.tasks && err == r.err
        && spec == old(spec).(serviceAndBuilds := r.builds)
    {
      if spec.dockerRegistryID !in env.registries {
        return [], Some("find docker registry: " + spec.dockerRegistryID + " error");
      }
      var registry := env.registries[spec.dockerRegistryID];
      if env.defaultS3.None? {
        return [], Some("find default s3 storage error");
      }
      var builds;
      resp, builds, err := CompileEntries(name, workflowName, registry, spec.serviceAndBuilds, env);
      spec := spec.(serviceAndBuilds := builds);
    }

  }

  /**
   * The per-entry loop of ToJobs: compile the entries in order and stop
   * at the first failure; the entries compiled (and the failing one) are
   * replaced by what their compilation left.
   */
  method CompileEntries(name: string, workflowName: string, registry: Registry,
                        builds: seq<ServiceAndBuild>, env: BuildEnvironment)
    returns (tasks: seq<JobTask>, newBuilds: seq<ServiceAndBuild>, err: Option<string>)
    ensures Compilation(tasks, newBuilds, err) == CompileAll(builds, CompileWith(name, workflowName, registry, env))
  {
    ghost var compile := CompileWith(name, workflowName, registry, env);
    tasks := [];
    var done: seq<ServiceAndBuild> := [];
    var i := 0;
    while i < |builds|
      invariant 0 <= i <= |builds|
      invariant CompiledUpTo(builds, i, compile, tasks, done)
    {
      var c := CompileEntry(name, workflowName, registry, builds[i], env);
      if c.CompileFailed? {
        CompileAllFails(builds, i, compile, tasks, done);
        return tasks, done + [c.build] + builds[i + 1..], Some(c.msg);
      }
      CompileAllExtends(builds, i, compile, tasks, done);
      tasks := tasks + [c.task];
      done := done + [c.build];
      i := i + 1;
    }
    CompileAllDone(builds, compile, tasks, done);
    newBuilds := done;
    err := None;
  }

  /** The first i entries compiled into `tasks`, leaving `done`. */
  ghost predicate CompiledUpTo(builds: seq<ServiceAndBuild>, i: nat, compile: ServiceAndBuild -> Compiled,
                               tasks: seq<JobTask>, done: seq<ServiceAndBuild>)
    requires i <= |builds|
  {
    var rest := CompileAll(builds[i..], compile);
    CompileAll(builds, compile) == Compilation(tasks + rest.tasks, done + rest.builds, rest.err)
  }

  lemma CompileAllExtends(builds: seq<ServiceAndBuild>, i: nat, compile: ServiceAndBuild -> Compiled,
                          tasks: seq<JobTask>, done: seq<ServiceAndBuild>)
    requires i < |builds| && CompiledUpTo(builds, i, compile, tasks, done)
    requires compile(builds[i]).Compiled?
    ensures CompiledUpTo(builds, i + 1, compile, tasks + [compile(builds[i]).task], done + [compile(builds[i]).build])
  {
    CompileAllAt(builds, i, compile);
    var c := compile(builds[i]);
    var rest := CompileAll(builds[i + 1..], compile);
    AppendAssoc(tasks, [c.task], rest.tasks);
    AppendAssoc(done, [c.build], rest.builds);
  }

  lemma CompileAllFails(builds: seq<ServiceAndBuild>, i: nat, compile: ServiceAndBuild -> Compiled,
                        tasks: seq<JobTask>, done: seq<ServiceAndBuild>)
    requires i < |builds| && CompiledUpTo(builds, i, compile, tasks, done)
    requires compile(builds[i]).CompileFailed?
    ensures CompileAll(builds, compile)
      == Compilation(tasks, done + [compile(builds[i]).build] + builds[i + 1..], Some(compile(builds[i]).msg))
  {
    CompileAllAt(builds, i, compile);
    var c := compile(builds[i]);
    assert CompileAll(builds[i..], compile) == Compilation([], [c.build] + builds[i + 1..], Some(c.msg));
    AppendAssoc(done, [c.build], builds[i + 1..]);
    assert tasks + [] == tasks;
  }

  lemma CompileAllDone(builds: seq<ServiceAndBuild>, compile: ServiceAndBuild -> Compiled,
                       tasks: seq<JobTask>, done: seq<ServiceAndBuild>)
    requires CompiledUpTo(builds, |builds|, compile, tasks, done)
    ensures CompileAll(builds, compile) == Compilation(tasks, done, None)
  {
    assert builds[|builds|..] == [];
  }

  /** CompileAll from entry i on, in terms of entry i and the entries after it. */
  lemma CompileAllAt(builds: seq<ServiceAndBuild>, i: nat, compile: ServiceAndBuild -> Compiled)
    requires i < |builds|
    ensures var c := compile(builds[i]);
      CompileAll(builds[i..], compile)
        == if c.CompileFailed? then Compilation([], [c.build] + builds[i + 1..], Some(c.msg))
           else var rest := CompileAll(builds[i + 1..], compile);
             Compilation([c.task] + rest.tasks, [c.build] + rest.builds, rest.err)
  {
    assert builds[i..][0] == builds[i] && builds[i..][1..] == builds[i + 1..];
  }

  /**
   * One entry of ToJobs, step by step: the image and package names,
   * the lookups, the output references, the in-place rendering of the
   * entry's repositories and the steps.
   */
  method CompileEntry(name: string, workflowName: string, registry: Registry, build: ServiceAndBuild,
                      env: BuildEnvironment) returns (c: Compiled)
    ensures c == CompileWith(name, workflowName, registry, env)(build)
  {
    var imageTag := env.releaseCandidate(build.repos, build.serviceModule, build.imageName, "image");
    var image := ImageOf(registry, imageTag);
    var pkgFile := env.releaseCandidate(build.repos, build.serviceModule, build.imageName, "tar") + ".tar.gz";

    var found := FindBuild(env.store, build);
    if found.Err? {
      return CompileFailed(found.msg, build);
    }
    c := CompileFoundEntry(name, workflowName, build, found.value, image, imageTag, pkgFile, env);
  }

  /** The rest of one entry of ToJobs, once its build is found and filled in. */
  method CompileFoundEntry(name: string, workflowName: string, build: ServiceAndBuild, buildInfo: BuildInfo,
                           image: string, imageTag: string, pkgFile: string, env: BuildEnvironment)
    returns (c: Compiled)
    ensures c == CompileFound(name, workflowName, build, buildInfo, image, imageTag, pkgFile, env)
  {
    if buildInfo.imageID !in env.basicImages {
      return CompileFailed("find base image: " + buildInfo.imageID + " error", build);
    }
    if env.registryListError.Some? {
      return CompileFailed(env.registryListError.value, build);
    }
    var outputs := EnsureBuildInOutputs(buildInfo.outputs);
    var taskName := env.jobNameFormat(build.serviceName + "-" + build.serviceModule + "-" + name);
    var key := name + "." + build.serviceName + "." + build.serviceModule;
    var customEnvs := RenderKeyVals(build.keyVals, buildInfo.envs);
    var envs := customEnvs + env.buildVariables(build, image, pkgFile);

    var cache, cacheErr := ResolveCache(buildInfo, env, envs);
    if cacheErr.Some? {
      return CompileFailed(cacheErr.value, build);
    }

    var newBuild := build.(image := JobOutputKey(key, ImageKey), package := JobOutputKey(key, PkgFileKey));
    var repoArray := new Repository[|build.repos|](k requires 0 <= k < |build.repos| => build.repos[k]);
    assert repoArray[..] == build.repos;
    var repos := RenderRepos(repoArray, buildInfo.repos, envs);
    newBuild := newBuild.(repos := repoArray[..]);

    var steps, missingStorage := AssembleSteps(build.serviceName, build.serviceModule, workflowName, taskName,
                                               cache, repos, buildInfo.scriptType, buildInfo.postBuild,
                                               image, imageTag, pkgFile, env.storages);
    if missingStorage.Some? {
      return CompileFailed("find object storage: " + missingStorage.value + " failed", newBuild);
    }
    var jobTask := JobTask(taskName, key,
      map["service_name" := build.serviceName, "service_module" := build.serviceModule, JobNameKey := name],
      JobZadigBuild, buildInfo.timeout, outputs, steps);
    return Compiled(jobTask, newBuild);
  }

  /** The image name: registry address, namespace if any, tag, without the URL scheme. */
  method ImageOf(registry: Registry, imageTag: string) returns (image: string)
    ensures image == BuildImage(registry, imageTag)
  {
    image := registry.regAddr + "/" + imageTag;
    if |registry.namespace| > 0 {
      image := registry.regAddr + "/" + registry.namespace + "/" + imageTag;
    }
    image := TrimPrefix(image, "http://");
    image := TrimPrefix(image, "https://");
  }

  /**
   * The cache setting of a build: fixed by the build for VM builds;
   * otherwise read from its cluster (an error if the cluster is missing),
   * with the user directory expanded when caching is on, and an error if
   * object caching names a missing object storage.
   */
  method ResolveCache(buildInfo: BuildInfo, env: BuildEnvironment, envs: seq<KeyVal>)
    returns (cache: CacheSetting, err: Option<string>)
    ensures buildInfo.infrastructure == VMInfrastructure ==>
      err.None? && cache == CacheOf(buildInfo, ClusterCache(NoMedium, ""), envs)
    ensures buildInfo.infrastructure != VMInfrastructure && buildInfo.clusterID !in env.clusters ==>
      err == Some("find cluster: " + buildInfo.clusterID + " error")
    ensures buildInfo.infrastructure != VMInfrastructure && buildInfo.clusterID in env.clusters ==>
      var cluster := env.clusters[buildInfo.clusterID];
      cache == CacheOf(buildInfo, cluster, envs)
      && err == (if cache.enable && cache.medium == ObjectMedium && cluster.objectStorageID !in env.storages
                 then Some("find cache s3 storage: " + cluster.objectStorageID + " error") else None)
  {
    if buildInfo.infrastructure == VMInfrastructure {
      cache := CacheSetting(buildInfo.cacheEnable, NoMedium, buildInfo.cacheUserDefined, buildInfo.cacheUserDir);
      return cache, None;
    }
    if buildInfo.clusterID !in env.clusters {
      return CacheSetting(false, NoMedium, false, ""), Some("find cluster: " + buildInfo.clusterID + " error");
    }
    var clusterInfo := env.clusters[buildInfo.clusterID];
    if clusterInfo.mediumType == NoMedium {
      cache := CacheSetting(false, NoMedium, false, "");
    } else {
      cache := CacheSetting(buildInfo.cacheEnable, clusterInfo.mediumType,
                            buildInfo.cacheUserDefined, buildInfo.cacheUserDir);
    }
    err := None;
    if cache.enable {
      cache := cache.(userDir := Expand(cache.userDir, envs));
      if cache.medium == ObjectMedium && clusterInfo.objectStorageID !in env.storages {
        err := Some("find cache s3 storage: " + clusterInfo.objectStorageID + " error");
      }
    }
  }

  /**
   * The steps of one build task appended one by one; the upload object
   * storage is looked up on the way and its id returned if missing.
   */
  method AssembleSteps(serviceName: string, serviceModule: string, workflowName: string, taskName: string,
                       cache: CacheSetting, repos: seq<Repository>, scriptType: ScriptType,
                       post: Option<PostBuild>, image: string, imageTag: string, pkgFile: string,
                       storages: map<string, S3Storage>)
    returns (steps: seq<StepTask>, missingStorage: Option<string>)
    ensures missingStorage ==
      (if HasObjectStorage(post) && post.value.objectStorageUpload.value.objectStorageID !in storages
       then Some(post.value.objectStorageUpload.value.objectStorageID) else None)
    ensures missingStorage.None? ==>
      steps == BuildSteps(serviceName, serviceModule, workflowName, taskName, cache, repos,
                          scriptType, post, image, imageTag, pkgFile)
  {
    steps := AssembleOpening(serviceName, serviceModule, workflowName, taskName, cache, repos, scriptType);
    var closing, missing := AssembleClosing(serviceName, serviceModule, workflowName, taskName, cache, repos,
                                            post, image, imageTag, pkgFile, storages);
    if missing.Some? {
      return steps + closing, missing;
    }
    steps := steps + closing;
    missingStorage := None;
  }

  /** The opening steps appended one by one. */
  method AssembleOpening(serviceName: string, serviceModule: string, workflowName: string, taskName: string,
                         cache: CacheSetting, repos: seq<Repository>, scriptType: ScriptType)
    returns (steps: seq<StepTask>)
    ensures steps == OpeningSteps(serviceName, serviceModule, workflowName, taskName, cache, repos, scriptType)
  {
    var cacheDir := "/workspace";
    if cache.userDefined {
      cacheDir := cache.userDir;
    }
    steps := [StepTask(serviceName + "-tool-install", taskName, StepTools, NoStepSpec)];
    if cache.enable && cache.medium == ObjectMedium {
      steps := steps + [StepTask(serviceName + "-download-archive", taskName, StepDownloadArchive,
                                 DownloadArchiveSpec(CacheObjectPath(workflowName, serviceName, serviceModule),
                                                     cacheDir))];
    }
    var scriptStep := StepTask("", taskName, StepUnset, NoStepSpec);
    if scriptType == ScriptShell || scriptType == ScriptEmpty {
      scriptStep := scriptStep.(name := serviceName + "-shell", stepType := StepShell);
    } else if scriptType == ScriptBatchFile {
      scriptStep := scriptStep.(name := serviceName + "-batchfile", stepType := StepBatchFile);
    } else if scriptType == ScriptPowerShell {
      scriptStep := scriptStep.(name := serviceName + "-powershell", stepType := StepPowerShell);
    }
    steps := steps + [StepTask(serviceName + "-git", taskName, StepGit, GitSpec(repos))];
    steps := steps + [StepTask(serviceName + "-debug_before", taskName, StepDebugBefore, NoStepSpec)];
    steps := steps + [scriptStep];
    steps := steps + [StepTask(serviceName + "-debug_after", taskName, StepDebugAfter, NoStepSpec)];
  }

  /** The closing steps appended one by one, stopping at a missing upload object storage. */
  method AssembleClosing(serviceName: string, serviceModule: string, workflowName: string, taskName: string,
                         cache: CacheSetting, repos: seq<Repository>, post: Option<PostBuild>,
                         image: string, imageTag: string, pkgFile: string, storages: map<string, S3Storage>)
    returns (steps: seq<StepTask>, missingStorage: Option<string>)
    ensures missingStorage ==
      (if HasObjectStorage(post) && post.value.objectStorageUpload.value.objectStorageID !in storages
       then Some(post.value.objectStorageUpload.value.objectStorageID) else None)
    ensures missingStorage.None? ==>
      steps == ClosingSteps(serviceName, serviceModule, workflowName, taskName, cache, repos, post,
                            image, imageTag, pkgFile)
  {
    var cacheDir := "/workspace";
    if cache.userDefined {
      cacheDir := cache.userDir;
    }
    var objectPath := CacheObjectPath(workflowName, serviceName, serviceModule);
    steps := [];
    if post.Some? && post.value.hasDockerBuild {
      steps := steps + [StepTask(serviceName + "-docker-build", taskName, StepDockerBuild,
                                 DockerBuildSpec(image, imageTag, repos))];
    }
    assert steps == Opt(HasDockerBuild(post), StepTask(serviceName + "-docker-build", taskName, StepDockerBuild,
                                                       DockerBuildSpec(image, imageTag, repos)));
    ghost var docker := steps;
    if cache.enable && cache.medium == ObjectMedium {
      steps := steps + [StepTask(serviceName + "-tar-archive", taskName, StepTarArchive,
                                 TarArchiveSpec(objectPath, cacheDir))];
    }
    assert steps == docker + Opt(ObjectCache(cache), StepTask(serviceName + "-tar-archive", taskName, StepTarArchive,
                                                              TarArchiveSpec(objectPath, CacheDir(cache))));
    ghost var tar := steps;
    if post.Some? && post.value.fileLocation != "" {
      steps := steps + [StepTask(serviceName + "-pkgfile-archive", taskName, StepArchive,
                                 ArchiveSpec(post.value.fileLocation, pkgFile))];
    }
    assert steps == tar + Opt(HasFileArchive(post), StepTask(serviceName + "-pkgfile-archive", taskName, StepArchive,
                                                             ArchiveSpec(if post.Some? then post.value.fileLocation
                                                                         else "", pkgFile)));
    ghost var archive := steps;
    missingStorage := None;
    if post.Some? && post.value.objectStorageUpload.Some? && post.value.objectStorageUpload.value.enabled {
      var id := post.value.objectStorageUpload.value.objectStorageID;
      if id !in storages {
        return steps, Some(id);
      }
      steps := steps + [StepTask(serviceName + "-object-storage", taskName, StepArchive, ObjectStorageSpec(id))];
    }
    assert steps == archive + Opt(HasObjectStorage(post), StepTask(serviceName + "-object-storage", taskName,
      StepArchive, ObjectStorageSpec(if HasObjectStorage(post)
                                     then post.value.objectStorageUpload.value.objectStorageID else "")));
    if post.Some? && post.value.scripts != "" {
      steps := steps + [StepTask(serviceName + "-post-shell", taskName, StepShell, NoStepSpec)];
    }
  }

  /** The stored entries the arguments name, in stored order, each merged with the first argument naming it. */
  method MergeBuildsWithArgs(builds: seq<ServiceAndBuild>, argsBuilds: seq<ServiceAndBuild>)
    returns (newBuilds: seq<ServiceAndBuild>)
    ensures newBuilds == MergedBuilds(builds, argsBuilds)
  {
    newBuilds := [];
    var i := 0;
    while i < |builds|
      invariant 0 <= i <= |builds|
      invariant newBuilds == MergedBuilds(builds[..i], argsBuilds)
    {
      FilterMapSnoc(builds, i, MergeWithArgs(argsBuilds));
      var merged := MergeWithFirstArg(builds[i], argsBuilds);
      if merged.Some? {
        newBuilds := newBuilds + [merged.value];
      }
      i := i + 1;
    }
    assert builds[..i] == builds;
  }

  /** A stored entry merged with the first argument entry naming it, if any. */
  method MergeWithFirstArg(build: ServiceAndBuild, argsBuilds: seq<ServiceAndBuild>)
    returns (merged: Option<ServiceAndBuild>)
    ensures merged == MergeWithArgs(argsBuilds)(build)
  {
    var j := 0;
    while j < |argsBuilds|
      invariant 0 <= j <= |argsBuilds|
      invariant forall k :: 0 <= k < j ==> !SameBuildTarget(build, argsBuilds[k])
    {
      var argsBuild := argsBuilds[j];
      if build.buildName == argsBuild.buildName && build.serviceName == argsBuild.serviceName
         && build.serviceModule == argsBuild.serviceModule {
        FirstSameBuildIs(argsBuilds, build, j);
        var repos := MergeRepos(build.repos, argsBuild.repos);
        var keyVals := RenderKeyVals(argsBuild.keyVals, build.keyVals);
        return Some(build.(repos := repos, keyVals := keyVals));
      }
      j := j + 1;
    }
    return None;
  }

  /** The user's entries by service and module; a later entry for the same pair wins. */
  method UserConfigured(builds: seq<ServiceAndBuild>) returns (userConfigured: map<string, ServiceAndBuild>)
    ensures userConfigured == UserBuildMap(builds)
  {
    userConfigured := map[];
    var i := 0;
    while i < |builds|
      invariant 0 <= i <= |builds|
      invariant userConfigured == UserBuildMap(builds[..i])
    {
      UserBuildMapSnoc(builds, i);
      var service := builds[i];
      userConfigured := userConfigured[service.serviceName + "++" + service.serviceModule := service];
      i := i + 1;
    }
    assert builds[..i] == builds;
  }

  /**
   * The latest entries the user had selected, each refreshed from its
   * build filled in for its module and merged with the user's entry; an
   * entry whose build or template is missing is skipped.
   */
  method RefreshBuilds(latestBuilds: seq<ServiceAndBuild>, userConfigured: map<string, ServiceAndBuild>,
                       store: BuildStore)
    returns (merged: seq<ServiceAndBuild>)
    ensures merged == FilterMap(latestBuilds, RefreshWith(userConfigured, store))
  {
    merged := [];
    var i := 0;
    while i < |latestBuilds|
      invariant 0 <= i <= |latestBuilds|
      invariant merged == FilterMap(latestBuilds[..i], RefreshWith(userConfigured, store))
    {
      FilterMapSnoc(latestBuilds, i, RefreshWith(userConfigured, store));
      var buildInfo := latestBuilds[i];
      var key := buildInfo.serviceName + "++" + buildInfo.serviceModule;
      if key !in userConfigured || buildInfo.buildName !in store.builds {
        i := i + 1;
        continue;
      }
      var latestBuild, fillErr := FillBuildDetail(store.builds[buildInfo.buildName], buildInfo.serviceName,
                                                  buildInfo.serviceModule, store);
      if fillErr.None? {
        var userDefinedArgs := userConfigured[key];
        buildInfo := RefreshFromBuild(buildInfo, latestBuild);
        var keyVals := RenderKeyVals(userDefinedArgs.keyVals, buildInfo.keyVals);
        var repos := MergeRepos(buildInfo.repos, userDefinedArgs.repos);
        var newBuildInfo := ServiceAndBuild(buildInfo.serviceName, buildInfo.serviceModule, buildInfo.buildName,
                                            buildInfo.imageName, buildInfo.image, buildInfo.package,
                                            keyVals, repos);
        merged := merged + [newBuildInfo];
      }
      i := i + 1;
    }
    assert latestBuilds[..i] == latestBuilds;
  }

  /** An entry refreshed from its build when the build still targets the entry's service module. */
  method RefreshFromBuild(buildInfo: ServiceAndBuild, latestBuild: BuildInfo) returns (b: ServiceAndBuild)
    ensures b == if HasTarget(latestBuild.targets, buildInfo.serviceName, buildInfo.serviceModule)
                 then buildInfo.(repos := MergedRepos(latestBuild.repos, buildInfo.repos),
                                 keyVals := RenderedKeyVals(buildInfo.keyVals, latestBuild.envs))
                 else buildInfo
  {
    b := buildInfo;
    var t := 0;
    while t < |latestBuild.targets|
      invariant 0 <= t <= |latestBuild.targets|
      invariant forall k :: 0 <= k < t ==>
        !(latestBuild.targets[k].serviceName == buildInfo.serviceName
          && latestBuild.targets[k].serviceModule == buildInfo.serviceModule)
    {
      var target := latestBuild.targets[t];
      if target.serviceName == buildInfo.serviceName && target.serviceModule == buildInfo.serviceModule {
        var repos := MergeRepos(latestBuild.repos, buildInfo.repos);
        var keyVals := RenderKeyVals(buildInfo.keyVals, latestBuild.envs);
        return buildInfo.(repos := repos, keyVals := keyVals);
      }
      t := t + 1;
    }
  }
}
