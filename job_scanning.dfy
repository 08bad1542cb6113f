// The code-scanning job of a workflow: the saved specification it holds,
// the operations that rewrite it (presetting it from the saved scannings,
// clearing the selection, merging runtime arguments, catching up with the
// latest saved workflow), the upstream job it can take its services from,
// and its compilation into one job task per scanning or per scanned
// service module.

module JobScanning {
  import opened Common
  import opened Models
  import opened JobBuild
  import opened JobBuildJob

  // =====================================================================
  // Records the compiler reads from the store

  /** The cache part of a scanning's advanced setting. */
  datatype ScanningCache = ScanningCache(cacheEnable: bool, userDefined: bool, userDir: string)

  /**
   * A saved scanning as the scanning store returns it, its template
   * details already filled in; `sonarID` is present exactly when the
   * scanner is SonarQube.
   */
  datatype ScanningInfo = ScanningInfo(
    repos: seq<Repository>,
    envs: seq<KeyVal>,
    outputs: seq<Output>,
    imageID: string,
    timeout: int,
    clusterID: string,
    infrastructure: Infrastructure,
    cache: Option<ScanningCache>,
    sonarID: Option<string>)

  /**
   * What compiling scanning jobs looks up: the project's scannings by
   * name, the known base images, the failure of the registry namespace
   * listing if it fails, the clusters and object storages by id, the
   * SonarQube integrations by id; and the helpers whose code lies
   * outside this model: the job-name formatter and the workflow
   * variables of a scanning's task (for the scanning as it stands, its
   * scanning type, service and module).
   */
  datatype ScanningEnvironment = ScanningEnvironment(
    scannings: map<string, ScanningInfo>,
    basicImages: set<string>,
    registryListError: Option<string>,
    clusters: map<string, ClusterCache>,
    storages: map<string, S3Storage>,
    sonars: set<string>,
    jobNameFormat: string -> string,
    workflowVariables: (ScanningModule, ScanningType, string, string) -> seq<KeyVal>)

  // =====================================================================
  // ensureScanningOutputs

  /** The two outputs every scanning task publishes (the metrics and the SonarQube project). */
  const ScanningOutputKey := "SONAR_METRICS"
  const ScanningProjectOutputKey := "SONAR_PROJECT_KEY"
  const ScanningOutputKeys := [ScanningOutputKey, ScanningProjectOutputKey]

  lemma MissingOfTwo(a: string, b: string, present: set<string>)
    ensures MissingOutputs([a, b], present)
         == (if a in present then [] else [Output(a)]) + (if b in present then [] else [Output(b)])
  {
    assert [a, b][1..] == [b] && [b][1..] == [];
    assert MissingOutputs([b], present) == (if b in present then [] else [Output(b)]) + [];
  }

  /** The outputs, followed by each of the two scanning outputs that was not already there. */
  method EnsureScanningOutputs(outputs: seq<Output>) returns (r: seq<Output>)
    ensures r == WithRequiredOutputs(outputs, ScanningOutputKeys)
  {
    var keyMap := OutputKeys(outputs);
    ghost var m1 := if ScanningOutputKey in keyMap then [] else [Output(ScanningOutputKey)];
    ghost var m2 := if ScanningProjectOutputKey in keyMap then [] else [Output(ScanningProjectOutputKey)];
    MissingOfTwo(ScanningOutputKey, ScanningProjectOutputKey, keyMap);
    r := outputs;
    if ScanningOutputKey !in keyMap {
      r := r + [Output(ScanningOutputKey)];
    }
    if ScanningProjectOutputKey !in keyMap {
      r := r + [Output(ScanningProjectOutputKey)];
    }
    AppendAssoc(outputs, m1, m2);
  }

  /**
   * The completed outputs start with the given ones, hold both scanning
   * outputs, add at most two entries, and completing them again changes
   * nothing.
   */
  lemma ScanningOutputsComplete(outputs: seq<Output>)
    ensures var r := WithRequiredOutputs(outputs, ScanningOutputKeys);
      r[..|outputs|] == outputs
      && ScanningOutputKey in OutputNames(r) && ScanningProjectOutputKey in OutputNames(r)
      && |r| <= |outputs| + 2
      && WithRequiredOutputs(r, ScanningOutputKeys) == r
  {
    WithRequiredOutputsComplete(outputs, ScanningOutputKeys);
    WithRequiredOutputsIdempotent(outputs, ScanningOutputKeys);
    MissingOfTwo(ScanningOutputKey, ScanningProjectOutputKey, OutputNames(outputs));
  }

  // =====================================================================
  // getScanningJobCacheObjectPath

  /** Where a scanning's cache lives in object storage: "{workflow}/cache/{scanning}". */
  function ScanningCacheObjectPath(workflowName: string, scanningName: string): string
  {
    workflowName + "/cache/" + scanningName
  }

  /**
   * Within one workflow, different scannings get different cache paths,
   * and a scanning whose name lacks '/' never shares its path with the
   * cache of a build's service module.
   */
  lemma ScanningCachePathsApart(wf: string, scan: string, other: string, serviceName: string, serviceModule: string)
    ensures ScanningCacheObjectPath(wf, scan) == ScanningCacheObjectPath(wf, other) ==> scan == other
    ensures '/' !in scan ==> ScanningCacheObjectPath(wf, scan) != CacheObjectPath(wf, serviceName, serviceModule)
  {
    var p := wf + "/cache/";
    assert ScanningCacheObjectPath(wf, scan) == p + scan;
    assert ScanningCacheObjectPath(wf, other) == p + other;
    assert ScanningCacheObjectPath(wf, scan)[|p|..] == scan;
    assert ScanningCacheObjectPath(wf, other)[|p|..] == other;
    var rest := serviceName + ['/'] + serviceModule;
    assert CacheObjectPath(wf, serviceName, serviceModule) == p + rest;
    assert (p + rest)[|p|..] == rest;
    assert rest[|serviceName|] == '/';
  }

  // =====================================================================
  // toJobTask: the task key, the JobInfo and the lookups

  /** The text a task records for its scanning type. */
  function ScanningTypeName(t: ScanningType): string
  {
    match t
    case NormalScanning => "normal_scanning"
    case ServiceScanning => "service_scanning"
    case OtherScanning(raw) => raw
  }

  /** "job.scanning" for a plain scanning, "job.scanning.service.module" for a scanned service module. */
  function ScanningTaskKey(jobName: string, scanningName: string, service: bool,
                           serviceName: string, serviceModule: string): string
  {
    if service then jobName + "." + scanningName + "." + serviceName + "." + serviceModule
    else jobName + "." + scanningName
  }

  /**
   * Within one job, the key names the scanning, and for a scanned service
   * module also the service and module, as long as scanning and service
   * names lack '.'.
   */
  lemma ScanningTaskKeyInjective(jobName: string, service: bool,
                                 n1: string, s1: string, m1: string, n2: string, s2: string, m2: string)
    requires '.' !in n1 && '.' !in n2
    requires service ==> '.' !in s1 && '.' !in s2
    requires ScanningTaskKey(jobName, n1, service, s1, m1) == ScanningTaskKey(jobName, n2, service, s2, m2)
    ensures n1 == n2
    ensures service ==> s1 == s2 && m1 == m2
  {
    var p := jobName + ".";
    if service {
      var r1 := s1 + ['.'] + m1;
      var r2 := s2 + ['.'] + m2;
      assert ScanningTaskKey(jobName, n1, service, s1, m1) == p + (n1 + ['.'] + r1);
      assert ScanningTaskKey(jobName, n2, service, s2, m2) == p + (n2 + ['.'] + r2);
      assert (p + (n1 + ['.'] + r1))[|p|..] == n1 + ['.'] + r1;
      assert (p + (n2 + ['.'] + r2))[|p|..] == n2 + ['.'] + r2;
      SeparatedPairInjective('.', n1, r1, n2, r2);
      SeparatedPairInjective('.', s1, m1, s2, m2);
    } else {
      assert (p + n1)[|p|..] == n1;
      assert (p + n2)[|p|..] == n2;
    }
  }

  /** The JobInfo of a scanning task: the job, the scanning and its type, and the service module for service scanning. */
  function ScanningJobInfo(jobName: string, scanningName: string, t: ScanningType,
                           serviceName: string, serviceModule: string): (info: map<string, string>)
    ensures JobNameKey in info && info[JobNameKey] == jobName
    ensures "scanning_name" in info && info["scanning_name"] == scanningName
    ensures "scanning_type" in info && info["scanning_type"] == ScanningTypeName(t)
    ensures ("service_name" in info) == (t == ServiceScanning) && ("service_module" in info) == (t == ServiceScanning)
    ensures t == ServiceScanning ==> info["service_name"] == serviceName && info["service_module"] == serviceModule
    ensures info.Keys <= {JobNameKey, "scanning_name", "scanning_type", "service_name", "service_module"}
  {
    var info := map[JobNameKey := jobName, "scanning_name" := scanningName, "scanning_type" := ScanningTypeName(t)];
    if t == ServiceScanning then info["service_name" := serviceName]["service_module" := serviceModule]
    else info
  }

  /**
   * The task for one scanning, or the error of the first lookup that
   * fails: the scanning itself, its base image, the registry namespace
   * listing, its cluster, the cluster's
   * cache object storage when an object cache applies, and its SonarQube
   * integration.
   */
  function ScanningTask(jobName: string, scanning: ScanningModule, t: ScanningType,
                        serviceName: string, serviceModule: string, env: ScanningEnvironment): (r: Result<JobTask>)
    ensures scanning.name !in env.scannings ==> r == Err("find scanning: " + scanning.name + " error")
  {
    if scanning.name !in env.scannings then Err("find scanning: " + scanning.name + " error")
    else
      var info := env.scannings[scanning.name];
      if info.imageID !in env.basicImages then Err("find basic image: " + info.imageID + " error")
      else if env.registryListError.Some? then Err(RegistryListPrefix + env.registryListError.value)
      else if info.clusterID !in env.clusters then Err("failed to find cluster: " + info.clusterID + ", error")
      else if ObjectCacheMissing(info, env) then
        Err("find cache s3 storage: " + env.clusters[info.clusterID].objectStorageID + " error")
      else if info.sonarID.Some? && info.sonarID.value !in env.sonars then
        Err(SonarLookupError)
      else Ok(NewScanningTask(jobName, scanning, t, serviceName, serviceModule, info, env))
  }

  /**
   * A failed registry listing stops a scanning whose own lookups
   * succeeded, before its cluster is looked up, with the listing's error.
   */
  lemma ScanningTaskRegistryListFails(jobName: string, scanning: ScanningModule, t: ScanningType,
                                      serviceName: string, serviceModule: string, env: ScanningEnvironment)
    requires scanning.name in env.scannings && env.scannings[scanning.name].imageID in env.basicImages
    requires env.registryListError.Some?
    ensures ScanningTask(jobName, scanning, t, serviceName, serviceModule, env)
         == Err(RegistryListPrefix + env.registryListError.value)
  {
  }

  /**
   * A task that compiles carries the key and JobInfo of its scanning (and
   * service module), the scanning job type, its scanning's timeout, and
   * its scanning's outputs completed with the two scanning outputs.
   */
  lemma ScanningTaskFields(jobName: string, scanning: ScanningModule, t: ScanningType,
                           serviceName: string, serviceModule: string, env: ScanningEnvironment)
    requires ScanningTask(jobName, scanning, t, serviceName, serviceModule, env).Ok?
    ensures var task := ScanningTask(jobName, scanning, t, serviceName, serviceModule, env).value;
      scanning.name in env.scannings
      && task.key == ScanningTaskKey(jobName, scanning.name, t == ServiceScanning, serviceName, serviceModule)
      && task.jobInfo == ScanningJobInfo(jobName, scanning.name, t, serviceName, serviceModule)
      && task.jobType == JobZadigScanning
      && task.timeout == env.scannings[scanning.name].timeout
      && task.outputs == WithRequiredOutputs(env.scannings[scanning.name].outputs, ScanningOutputKeys)
  {
  }

  /** The task built for a scanning once every lookup has succeeded. */
  function NewScanningTask(jobName: string, scanning: ScanningModule, t: ScanningType,
                           serviceName: string, serviceModule: string, info: ScanningInfo,
                           env: ScanningEnvironment): JobTask
  {
    JobTask(env.jobNameFormat(scanning.name + "-" + jobName + "-" + serviceName + "-" + serviceModule),
            ScanningTaskKey(jobName, scanning.name, t == ServiceScanning, serviceName, serviceModule),
            ScanningJobInfo(jobName, scanning.name, t, serviceName, serviceModule),
            JobZadigScanning, info.timeout,
            WithRequiredOutputs(info.outputs, ScanningOutputKeys), [])
  }

  /**
   * A container scanning on a cluster with an object-storage cache, with
   * cache settings of its own, needs that object storage; it is missing.
   */
  predicate ObjectCacheMissing(info: ScanningInfo, env: ScanningEnvironment)
    requires info.clusterID in env.clusters
  {
    var cluster := env.clusters[info.clusterID];
    info.infrastructure != VMInfrastructure && cluster.mediumType == ObjectMedium
    && info.cache.Some? && cluster.objectStorageID !in env.storages
  }

  const RegistryListPrefix := "list registries error: "

  const SonarLookupError := "failed to get sonar integration information to create scanning task, error"

  // =====================================================================
  // The scanning's repositories, rendered in place by its compilation

  const BranchKey := "BRANCH"

  /**
   * The variables a scanning's task runs with, in order: the workflow
   * variables, the saved scanning's variables, those saved variables with
   * the job's values rendered in, and BRANCH, the branch of the first
   * repository, when the scanning has a repository.
   */
  function ScanningVariables(s: ScanningModule, t: ScanningType, serviceName: string, serviceModule: string,
                             info: ScanningInfo, env: ScanningEnvironment): seq<KeyVal>
  {
    env.workflowVariables(s, t, serviceName, serviceModule) + info.envs + RenderedKeyVals(s.keyVals, info.envs)
    + (if |s.repos| > 0 then [KeyVal(BranchKey, s.repos[0].branch, "", false, [])] else [])
  }

  /**
   * Every lookup before the git step succeeds: the scanning, its base
   * image, the registry namespace listing, its cluster and its cache
   * object storage.
   */
  predicate ScanningLookupsPass(s: ScanningModule, env: ScanningEnvironment)
  {
    s.name in env.scannings
    && env.scannings[s.name].imageID in env.basicImages
    && env.registryListError.None?
    && env.scannings[s.name].clusterID in env.clusters
    && !ObjectCacheMissing(env.scannings[s.name], env)
  }

  /**
   * The scanning as its compilation leaves it: its repositories are
   * rendered in place against the saved scanning's repositories with the
   * task's variables. Nothing else changes, and each repository keeps its
   * name and owner; one that no saved repository names is left as it was.
   */
  function RenderedScanning(s: ScanningModule, t: ScanningType, serviceName: string, serviceModule: string,
                            env: ScanningEnvironment): (r: ScanningModule)
    ensures r == s.(repos := r.repos) && |r.repos| == |s.repos|
    ensures forall j :: 0 <= j < |s.repos| ==>
      r.repos[j].repoName == s.repos[j].repoName && r.repos[j].repoOwner == s.repos[j].repoOwner
    ensures forall j :: 0 <= j < |s.repos| && (s.name !in env.scannings
                                               || MatchCount(env.scannings[s.name].repos, s.repos[j]) == 0)
                        ==> r.repos[j] == s.repos[j]
  {
    if s.name !in env.scannings then s
    else
      var info := env.scannings[s.name];
      s.(repos := RenderedAfter(s.repos, info.repos, ScanningVariables(s, t, serviceName, serviceModule, info, env)))
  }

  /** The compiled task does not read the scanning's repositories. */
  lemma ScanningTaskIgnoresRepos(jobName: string, s: ScanningModule, repos: seq<Repository>, t: ScanningType,
                                 serviceName: string, serviceModule: string, env: ScanningEnvironment)
    ensures ScanningTask(jobName, s.(repos := repos), t, serviceName, serviceModule, env)
         == ScanningTask(jobName, s, t, serviceName, serviceModule, env)
  {
  }

  /** A scanning compiles only once every lookup before the git step has succeeded. */
  lemma ScanningTaskPassesLookups(jobName: string, s: ScanningModule, t: ScanningType,
                                  serviceName: string, serviceModule: string, env: ScanningEnvironment)
    requires ScanningTask(jobName, s, t, serviceName, serviceModule, env).Ok?
    ensures ScanningLookupsPass(s, env)
  {
  }

  /** toJobTask, step by step; `rendered` is the scanning as the call leaves it. */
  method ToJobTask(jobName: string, scanning: ScanningModule, t: ScanningType,
                   serviceName: string, serviceModule: string, env: ScanningEnvironment)
    returns (r: Result<JobTask>, rendered: ScanningModule)
    ensures r == ScanningTask(jobName, scanning, t, serviceName, serviceModule, env)
    ensures rendered == if ScanningLookupsPass(scanning, env)
                        then RenderedScanning(scanning, t, serviceName, serviceModule, env) else scanning
  {
    if scanning.name !in env.scannings {
      return Err("find scanning: " + scanning.name + " error"), scanning;
    }
    var scanningInfo := env.scannings[scanning.name];
    if scanningInfo.imageID !in env.basicImages {
      return Err("find basic image: " + scanningInfo.imageID + " error"), scanning;
    }
    if env.registryListError.Some? {
      return Err(RegistryListPrefix + env.registryListError.value), scanning;
    }
    var jobTask := NewJobTask(jobName, scanning, t, serviceName, serviceModule, scanningInfo, env);
    if scanningInfo.clusterID !in env.clusters {
      return Err("failed to find cluster: " + scanningInfo.clusterID + ", error"), scanning;
    }
    var clusterInfo := env.clusters[scanningInfo.clusterID];
    if scanningInfo.infrastructure != VMInfrastructure && clusterInfo.mediumType != NoMedium
       && scanningInfo.cache.Some? && clusterInfo.mediumType == ObjectMedium
       && clusterInfo.objectStorageID !in env.storages {
      return Err("find cache s3 storage: " + clusterInfo.objectStorageID + " error"), scanning;
    }
    assert !ObjectCacheMissing(scanningInfo, env);
    var envs := ScanningVariables(scanning, t, serviceName, serviceModule, scanningInfo, env);
    var repoArray := new Repository[|scanning.repos|](k requires 0 <= k < |scanning.repos| => scanning.repos[k]);
    assert repoArray[..] == scanning.repos;
    var gitRepos := RenderRepos(repoArray, scanningInfo.repos, envs);
    rendered := scanning.(repos := repoArray[..]);
    if scanningInfo.sonarID.Some? && scanningInfo.sonarID.value !in env.sonars {
      return Err(SonarLookupError), rendered;
    }
    return Ok(jobTask), rendered;
  }

  /** The task's name, key, JobInfo, timeout and outputs, filled in one by one. */
  method NewJobTask(jobName: string, scanning: ScanningModule, t: ScanningType,
                    serviceName: string, serviceModule: string, scanningInfo: ScanningInfo,
                    env: ScanningEnvironment) returns (jobTask: JobTask)
    ensures jobTask == NewScanningTask(jobName, scanning, t, serviceName, serviceModule, scanningInfo, env)
  {
    var timeout := scanningInfo.timeout;
    var jobInfo := map[JobNameKey := jobName, "scanning_name" := scanning.name,
                       "scanning_type" := ScanningTypeName(t)];
    if t == ServiceScanning {
      jobInfo := jobInfo["service_name" := serviceName];
      jobInfo := jobInfo["service_module" := serviceModule];
    }
    var jobKey := jobName + "." + scanning.name;
    if t == ServiceScanning {
      jobKey := jobName + "." + scanning.name + "." + serviceName + "." + serviceModule;
    }
    assert jobInfo == ScanningJobInfo(jobName, scanning.name, t, serviceName, serviceModule);
    assert jobKey == ScanningTaskKey(jobName, scanning.name, t == ServiceScanning, serviceName, serviceModule);
    var outputs := EnsureScanningOutputs(scanningInfo.outputs);
    jobTask := JobTask(env.jobNameFormat(scanning.name + "-" + jobName + "-" + serviceName + "-" + serviceModule),
                           jobKey, jobInfo, JobZadigScanning, timeout, outputs, []);
  }

  // =====================================================================
  // getOriginReferedJobTargets: the service modules of an upstream job

  /** The service modules a build job builds, in order. */
  function BuildTargetsOf(builds: seq<ServiceAndBuild>): seq<ServiceTestTarget>
  {
    seq(|builds|, i requires 0 <= i < |builds| => ServiceTestTarget(builds[i].serviceName, builds[i].serviceModule))
  }

  /** The service modules an image-distribute job distributes, in order. */
  function DistributeTargetsOf(targets: seq<DistributeTarget>): seq<ServiceTestTarget>
  {
    seq(|targets|, i requires 0 <= i < |targets| => ServiceTestTarget(targets[i].serviceName, targets[i].serviceModule))
  }

  /** The modules of one deployed service. */
  function ModuleTargets(svc: DeployService): seq<ServiceTestTarget>
  {
    seq(|svc.modules|, k requires 0 <= k < |svc.modules| => ServiceTestTarget(svc.serviceName, svc.modules[k].serviceModule))
  }

  /** The service modules a deploy job deploys: service by service, module by module. */
  function DeployTargetsOf(services: seq<DeployService>): seq<ServiceTestTarget>
  {
    if |services| == 0 then []
    else DeployTargetsOf(services[..|services| - 1]) + ModuleTargets(services[|services| - 1])
  }

  /** A deploy job offers exactly the (service, module) pairs of its services. */
  lemma {:induction false} DeployTargetsOfMembers(services: seq<DeployService>, t: ServiceTestTarget)
    ensures t in DeployTargetsOf(services) <==>
      exists i, k :: 0 <= i < |services| && 0 <= k < |services[i].modules|
        && t == ServiceTestTarget(services[i].serviceName, services[i].modules[k].serviceModule)
    decreases |services|
  {
    if |services| > 0 {
      var init := services[..|services| - 1];
      var last := services[|services| - 1];
      DeployTargetsOfMembers(init, t);
      if t in ModuleTargets(last) {
        var k :| 0 <= k < |last.modules| && ModuleTargets(last)[k] == t;
        assert services[|services| - 1] == last;
      }
      if exists i, k :: 0 <= i < |services| && 0 <= k < |services[i].modules|
           && t == ServiceTestTarget(services[i].serviceName, services[i].modules[k].serviceModule) {
        var i, k :| 0 <= i < |services| && 0 <= k < |services[i].modules|
          && t == ServiceTestTarget(services[i].serviceName, services[i].modules[k].serviceModule);
        if i < |services| - 1 {
          assert services[i] == init[i];
        } else {
          assert t == ModuleTargets(last)[k];
        }
      }
    }
  }

  /** The targets a job of each kind offers; a job of any other kind offers none. */
  function TargetsOfJob(job: Job): Option<seq<ServiceTestTarget>>
  {
    match job.jobType
    case JobZadigBuild => Some(BuildTargetsOf(AsBuildSpec(job.spec).serviceAndBuilds))
    case JobZadigDistributeImage => Some(DistributeTargetsOf(AsDistributeSpec(job.spec).targets))
    case JobZadigDeploy => Some(DeployTargetsOf(AsDeploySpec(job.spec).services))
    case JobZadigScanning => Some(AsScanningSpec(job.spec).targetServices)
    case _ => None
  }

  /**
   * The targets of the first of the jobs with the referenced name whose
   * kind offers targets; jobs of that name of other kinds are passed over.
   */
  function FirstTargets(jobs: seq<Job>, refName: string): (r: Option<seq<ServiceTestTarget>>)
    ensures r.None? <==> forall k :: 0 <= k < |jobs| && jobs[k].name == refName ==> TargetsOfJob(jobs[k]).None?
    ensures r.Some? ==> exists k :: (0 <= k < |jobs| && jobs[k].name == refName && TargetsOfJob(jobs[k]) == r
      && forall l :: 0 <= l < k && jobs[l].name == refName ==> TargetsOfJob(jobs[l]).None?)
  {
    if |jobs| == 0 then None
    else if jobs[0].name == refName && TargetsOfJob(jobs[0]).Some? then TargetsOfJob(jobs[0])
    else
      var r := FirstTargets(jobs[1..], refName);
      assert forall k :: 1 <= k < |jobs| ==> jobs[k] == jobs[1..][k - 1];
      if r.Some? then
        var k :| 0 <= k < |jobs[1..]| && jobs[1..][k].name == refName && TargetsOfJob(jobs[1..][k]) == r
          && forall l :: 0 <= l < k && jobs[1..][l].name == refName ==> TargetsOfJob(jobs[1..][l]).None?;
        assert jobs[k + 1] == jobs[1..][k];
        r
      else r
  }

  /** The same search, stage by stage. */
  function FirstTargetsInStages(stages: seq<Stage>, refName: string): Option<seq<ServiceTestTarget>>
  {
    if |stages| == 0 then None
    else if FirstTargets(stages[0].jobs, refName).Some? then FirstTargets(stages[0].jobs, refName)
    else FirstTargetsInStages(stages[1..], refName)
  }

  lemma {:induction false} FirstTargetsAppend(a: seq<Job>, b: seq<Job>, refName: string)
    ensures FirstTargets(a + b, refName)
         == if FirstTargets(a, refName).Some? then FirstTargets(a, refName) else FirstTargets(b, refName)
    decreases |a|
  {
    if |a| > 0 {
      assert (a + b)[0] == a[0] && (a + b)[1..] == a[1..] + b;
      FirstTargetsAppend(a[1..], b, refName);
    } else {
      assert a + b == b;
    }
  }

  /** Searching stage by stage finds what searching the workflow's jobs in order finds. */
  lemma {:induction false} FirstTargetsInStagesFlat(stages: seq<Stage>, refName: string)
    ensures FirstTargetsInStages(stages, refName) == FirstTargets(AllJobs(stages), refName)
    decreases |stages|
  {
    if |stages| > 0 {
      FirstTargetsInStagesFlat(stages[1..], refName);
      FirstTargetsAppend(stages[0].jobs, AllJobs(stages[1..]), refName);
    }
  }

  /** getOriginReferedJobTargets: the upstream job's targets, or an error naming `jobName`. */
  function OriginReferredTargets(stages: seq<Stage>, refName: string, jobName: string): Result<seq<ServiceTestTarget>>
  {
    match FirstTargetsInStages(stages, refName)
    case None => Err("build job " + jobName + " not found")
    case Some(ts) => Ok(ts)
  }

  /**
   * The upstream targets come from the first job of the workflow (in stage
   * order) with the referenced name and a kind that offers targets; when
   * there is none the lookup fails with an error.
   */
  lemma OriginReferredTargetsFirst(stages: seq<Stage>, refName: string, jobName: string)
    ensures var jobs := AllJobs(stages);
      match OriginReferredTargets(stages, refName, jobName)
      case Err(m) => m == "build job " + jobName + " not found"
        && forall k :: 0 <= k < |jobs| && jobs[k].name == refName ==> TargetsOfJob(jobs[k]).None?
      case Ok(ts) => exists k :: (0 <= k < |jobs| && jobs[k].name == refName && TargetsOfJob(jobs[k]) == Some(ts)
        && forall l :: 0 <= l < k && jobs[l].name == refName ==> TargetsOfJob(jobs[l]).None?)
  {
    FirstTargetsInStagesFlat(stages, refName);
  }

  method CollectBuildTargets(builds: seq<ServiceAndBuild>) returns (targets: seq<ServiceTestTarget>)
    ensures targets == BuildTargetsOf(builds)
  {
    targets := [];
    var i := 0;
    while i < |builds|
      invariant 0 <= i <= |builds|
      invariant targets == BuildTargetsOf(builds[..i])
    {
      targets := targets + [ServiceTestTarget(builds[i].serviceName, builds[i].serviceModule)];
      i := i + 1;
    }
    assert builds[..i] == builds;
  }

  method CollectDistributeTargets(distributes: seq<DistributeTarget>) returns (targets: seq<ServiceTestTarget>)
    ensures targets == DistributeTargetsOf(distributes)
  {
    targets := [];
    var i := 0;
    while i < |distributes|
      invariant 0 <= i <= |distributes|
      invariant targets == DistributeTargetsOf(distributes[..i])
    {
      targets := targets + [ServiceTestTarget(distributes[i].serviceName, distributes[i].serviceModule)];
      i := i + 1;
    }
    assert distributes[..i] == distributes;
  }

  method CollectDeployTargets(services: seq<DeployService>) returns (targets: seq<ServiceTestTarget>)
    ensures targets == DeployTargetsOf(services)
  {
    targets := [];
    var i := 0;
    while i < |services|
      invariant 0 <= i <= |services|
      invariant targets == DeployTargetsOf(services[..i])
    {
      var svc := services[i];
      ghost var before := targets;
      var k := 0;
      while k < |svc.modules|
        invariant 0 <= k <= |svc.modules|
        invariant targets == before + ModuleTargets(svc)[..k]
      {
        targets := targets + [ServiceTestTarget(svc.serviceName, svc.modules[k].serviceModule)];
        assert ModuleTargets(svc)[..k + 1] == ModuleTargets(svc)[..k] + [ModuleTargets(svc)[k]];
        k := k + 1;
      }
      assert ModuleTargets(svc)[..k] == ModuleTargets(svc);
      assert services[..i + 1][..i] == services[..i];
      i := i + 1;
    }
    assert services[..i] == services;
  }

  /** The targets one job offers, collected by its kind. */
  method JobTargets(job: Job) returns (targets: Option<seq<ServiceTestTarget>>)
    ensures targets == TargetsOfJob(job)
  {
    if job.jobType == JobZadigBuild {
      var ts := CollectBuildTargets(AsBuildSpec(job.spec).serviceAndBuilds);
      return Some(ts);
    }
    if job.jobType == JobZadigDistributeImage {
      var ts := CollectDistributeTargets(AsDistributeSpec(job.spec).targets);
      return Some(ts);
    }
    if job.jobType == JobZadigDeploy {
      var ts := CollectDeployTargets(AsDeploySpec(job.spec).services);
      return Some(ts);
    }
    if job.jobType == JobZadigScanning {
      return Some(AsScanningSpec(job.spec).targetServices);
    }
    return None;
  }

  /** Walk the stages in order and return the targets of the first job that offers them. */
  method GetOriginReferedJobTargets(stages: seq<Stage>, refName: string, jobName: string)
    returns (r: Result<seq<ServiceTestTarget>>)
    ensures r == OriginReferredTargets(stages, refName, jobName)
  {
    var i := 0;
    while i < |stages|
      invariant 0 <= i <= |stages|
      invariant FirstTargetsInStages(stages, refName) == FirstTargetsInStages(stages[i..], refName)
    {
      var jobs := stages[i].jobs;
      assert stages[i..][0] == stages[i] && stages[i..][1..] == stages[i + 1..];
      var j := 0;
      while j < |jobs|
        invariant 0 <= j <= |jobs|
        invariant FirstTargets(jobs, refName) == FirstTargets(jobs[j..], refName)
      {
        assert jobs[j..][0] == jobs[j] && jobs[j..][1..] == jobs[j + 1..];
        var job := jobs[j];
        if job.name == refName {
          var targets := JobTargets(job);
          if targets.Some? {
            return Ok(targets.value);
          }
        }
        j := j + 1;
      }
      assert jobs[j..] == [];
      i := i + 1;
    }
    assert stages[i..] == [];
    return Err("build job " + jobName + " not found");
  }

  // =====================================================================
  // ToJobs: one task per scanning, or per (target, scanning) pair

  /** A scanning configured for the target's service module. */
  predicate ScanningFor(t: ServiceTestTarget, e: ServiceAndScannings)
  {
    e.serviceName == t.serviceName && e.serviceModule == t.serviceModule
  }

  /** The scannings configured for one target, in configuration order. */
  function TargetScannings(t: ServiceTestTarget, sas: seq<ServiceAndScannings>): seq<ServiceAndScannings>
  {
    if |sas| == 0 then []
    else (if ScanningFor(t, sas[0]) then [sas[0]] else []) + TargetScannings(t, sas[1..])
  }

  /** Target by target, the scannings configured for each: the order service scanning compiles in. */
  function ScanPairs(targets: seq<ServiceTestTarget>, sas: seq<ServiceAndScannings>): seq<ServiceAndScannings>
  {
    if |targets| == 0 then []
    else TargetScannings(targets[0], sas) + ScanPairs(targets[1..], sas)
  }

  lemma {:induction false} TargetScanningsMembers(t: ServiceTestTarget, sas: seq<ServiceAndScannings>)
    ensures forall e :: e in TargetScannings(t, sas) <==> e in sas && ScanningFor(t, e)
    decreases |sas|
  {
    if |sas| > 0 {
      TargetScanningsMembers(t, sas[1..]);
      assert sas == [sas[0]] + sas[1..];
    }
  }

  /**
   * The compiled pairs are exactly the configured scannings of the
   * selected targets, and the targets' groups follow the targets' order.
   */
  lemma {:induction false} ScanPairsMembers(targets: seq<ServiceTestTarget>, sas: seq<ServiceAndScannings>)
    ensures forall e :: e in ScanPairs(targets, sas) <==> e in sas && exists t :: t in targets && ScanningFor(t, e)
    decreases |targets|
  {
    if |targets| > 0 {
      ScanPairsMembers(targets[1..], sas);
      TargetScanningsMembers(targets[0], sas);
      assert targets == [targets[0]] + targets[1..];
    }
  }

  lemma {:induction false} ScanPairsAppend(ts1: seq<ServiceTestTarget>, ts2: seq<ServiceTestTarget>, sas: seq<ServiceAndScannings>)
    ensures ScanPairs(ts1 + ts2, sas) == ScanPairs(ts1, sas) + ScanPairs(ts2, sas)
    decreases |ts1|
  {
    if |ts1| == 0 {
      assert ts1 + ts2 == ts2;
    } else {
      assert (ts1 + ts2)[0] == ts1[0] && (ts1 + ts2)[1..] == ts1[1..] + ts2;
      ScanPairsAppend(ts1[1..], ts2, sas);
      AppendAssoc(TargetScannings(ts1[0], sas), ScanPairs(ts1[1..], sas), ScanPairs(ts2, sas));
    }
  }

  lemma ScanPairsAt(targets: seq<ServiceTestTarget>, i: nat, sas: seq<ServiceAndScannings>)
    requires i < |targets|
    ensures ScanPairs(targets[i..], sas) == TargetScannings(targets[i], sas) + ScanPairs(targets[i + 1..], sas)
  {
    assert targets[i..][0] == targets[i] && targets[i..][1..] == targets[i + 1..];
  }

  lemma TargetScanningsAt(t: ServiceTestTarget, sas: seq<ServiceAndScannings>, j: nat)
    requires j < |sas|
    ensures TargetScannings(t, sas[j..])
         == (if ScanningFor(t, sas[j]) then [sas[j]] else []) + TargetScannings(t, sas[j + 1..])
  {
    assert sas[j..][0] == sas[j] && sas[j..][1..] == sas[j + 1..];
  }

  /** Compiling a plain scanning. */
  function NormalTask(name: string, env: ScanningEnvironment): ScanningModule -> Result<JobTask>
  {
    (s: ScanningModule) => ScanningTask(name, s, NormalScanning, "", "", env)
  }

  /** Compiling a scanning for its service module. */
  function ServiceTask(name: string, env: ScanningEnvironment): ServiceAndScannings -> Result<JobTask>
  {
    (e: ServiceAndScannings) => ScanningTask(name, e.scanning, ServiceScanning, e.serviceName, e.serviceModule, env)
  }

  /** The plain scannings after each has been compiled once. */
  function RenderedScannings(ss: seq<ScanningModule>, env: ScanningEnvironment): seq<ScanningModule>
  {
    seq(|ss|, i requires 0 <= i < |ss| => RenderedScanning(ss[i], NormalScanning, "", "", env))
  }

  /** A configured scanning after one compilation for its service module. */
  function RenderedConfigured(e: ServiceAndScannings, env: ScanningEnvironment): ServiceAndScannings
  {
    e.(scanning := RenderedScanning(e.scanning, ServiceScanning, e.serviceName, e.serviceModule, env))
  }

  /** A configured scanning after compiling the scannings configured for `t`. */
  function RenderedEntry(t: ServiceTestTarget, e: ServiceAndScannings, env: ScanningEnvironment): ServiceAndScannings
  {
    if ScanningFor(t, e) then RenderedConfigured(e, env) else e
  }

  /** The configured scannings after one more compilation of those configured for `t`. */
  function RenderedForTarget(t: ServiceTestTarget, sas: seq<ServiceAndScannings>, env: ScanningEnvironment)
    : seq<ServiceAndScannings>
  {
    seq(|sas|, j requires 0 <= j < |sas| => RenderedEntry(t, sas[j], env))
  }

  /** The configured scannings after compiling for each target in turn. */
  function RenderedForTargets(targets: seq<ServiceTestTarget>, sas: seq<ServiceAndScannings>,
                              env: ScanningEnvironment): seq<ServiceAndScannings>
  {
    if |targets| == 0 then sas
    else RenderedForTarget(targets[|targets| - 1], RenderedForTargets(targets[..|targets| - 1], sas, env), env)
  }

  /** How many of the targets select the configured scanning `e`. */
  function SelectingTargets(targets: seq<ServiceTestTarget>, e: ServiceAndScannings): nat
  {
    if |targets| == 0 then 0
    else SelectingTargets(targets[..|targets| - 1], e) + (if ScanningFor(targets[|targets| - 1], e) then 1 else 0)
  }

  /** A service scanning after `n` compilations. */
  function RenderedTimes(s: ScanningModule, n: nat, serviceName: string, serviceModule: string,
                         env: ScanningEnvironment): (r: ScanningModule)
    ensures r == s.(repos := r.repos) && |r.repos| == |s.repos|
  {
    if n == 0 then s
    else RenderedScanning(RenderedTimes(s, n - 1, serviceName, serviceModule, env), ServiceScanning,
                          serviceName, serviceModule, env)
  }

  /**
   * Compiling for the targets renders each configured scanning once for
   * every target that selects it, each time from the state the previous
   * compilation left; a scanning no target selects is left as it was.
   */
  lemma {:induction false} RenderedForTargetsCount(targets: seq<ServiceTestTarget>, sas: seq<ServiceAndScannings>,
                                                   env: ScanningEnvironment)
    ensures |RenderedForTargets(targets, sas, env)| == |sas|
    ensures forall j :: 0 <= j < |sas| ==>
      RenderedForTargets(targets, sas, env)[j]
        == sas[j].(scanning := RenderedTimes(sas[j].scanning, SelectingTargets(targets, sas[j]),
                                             sas[j].serviceName, sas[j].serviceModule, env))
    ensures forall j :: 0 <= j < |sas| && SelectingTargets(targets, sas[j]) == 0 ==>
      RenderedForTargets(targets, sas, env)[j] == sas[j]
    decreases |targets|
  {
    if |targets| > 0 {
      var init := targets[..|targets| - 1];
      var last := targets[|targets| - 1];
      RenderedForTargetsCount(init, sas, env);
      var prev := RenderedForTargets(init, sas, env);
      forall j | 0 <= j < |sas|
        ensures RenderedForTargets(targets, sas, env)[j]
             == sas[j].(scanning := RenderedTimes(sas[j].scanning, SelectingTargets(targets, sas[j]),
                                                  sas[j].serviceName, sas[j].serviceModule, env))
      {
        assert ScanningFor(last, prev[j]) == ScanningFor(last, sas[j]);
      }
    }
  }

  /** The entries agree in everything but their scanning's repositories. */
  predicate SameButRepos(cur: seq<ServiceAndScannings>, sas: seq<ServiceAndScannings>)
  {
    |cur| == |sas|
    && forall j :: 0 <= j < |sas| ==>
         cur[j] == sas[j].(scanning := sas[j].scanning.(repos := cur[j].scanning.repos))
  }

  /** Scannings that differ only in their repositories compile to the same tasks. */
  lemma {:induction false} TargetRunIgnoresRepos(name: string, t: ServiceTestTarget, cur: seq<ServiceAndScannings>,
                                                 sas: seq<ServiceAndScannings>, env: ScanningEnvironment)
    requires SameButRepos(cur, sas)
    ensures RunAll(TargetScannings(t, cur), ServiceTask(name, env))
         == RunAll(TargetScannings(t, sas), ServiceTask(name, env))
    decreases |sas|
  {
    if |sas| > 0 {
      var f := ServiceTask(name, env);
      assert SameButRepos(cur[1..], sas[1..]) by {
        forall j | 0 <= j < |sas| - 1
          ensures cur[1..][j] == sas[1..][j].(scanning := sas[1..][j].scanning.(repos := cur[1..][j].scanning.repos))
        {
          assert cur[1..][j] == cur[j + 1] && sas[1..][j] == sas[j + 1];
        }
      }
      TargetRunIgnoresRepos(name, t, cur[1..], sas[1..], env);
      ScanningTaskIgnoresRepos(name, sas[0].scanning, cur[0].scanning.repos, ServiceScanning,
                               sas[0].serviceName, sas[0].serviceModule, env);
      assert f(cur[0]) == f(sas[0]);
      if ScanningFor(t, sas[0]) {
        RunAllCons(cur[0], TargetScannings(t, cur[1..]), f);
        RunAllCons(sas[0], TargetScannings(t, sas[1..]), f);
      } else {
        assert [] + TargetScannings(t, cur[1..]) == TargetScannings(t, cur[1..]);
        assert [] + TargetScannings(t, sas[1..]) == TargetScannings(t, sas[1..]);
      }
    }
  }

  /** The specification as compiling each selected scanning leaves it. */
  function RenderedSpec(spec: ScanningJobSpec, env: ScanningEnvironment): ScanningJobSpec
  {
    if spec.scanningType == NormalScanning then spec.(scannings := RenderedScannings(spec.scannings, env))
    else if spec.scanningType == ServiceScanning
    then spec.(serviceAndScannings := RenderedForTargets(spec.targetServices, spec.serviceAndScannings, env))
    else spec
  }

  /** What ToJobs returns, and the specification the job keeps afterwards. */
  datatype ScanningOutcome = ScanningOutcome(tasks: seq<JobTask>, err: Option<string>, spec: ScanningJobSpec)

  /** The upstream job a FromJob scanning reads: the quoted job name when there is one. */
  function ReferredJobName(spec: ScanningJobSpec): string
  {
    if spec.originJobName != "" then spec.originJobName else spec.jobName
  }

  const OriginLookupPrefix := "get origin refered job: "
  const OriginLookupMiddle := " targets failed, err: "

  /**
   * ToJobs: plain scannings compile one by one (the first failure drops
   * every task); a FromJob job then takes its targets from the upstream
   * job; service scanning compiles each target's configured scannings
   * (a failure returns the tasks compiled so far). Only when everything
   * succeeded does the job keep the upstream name and targets, and the
   * compiled scannings with their repositories rendered in place.
   */
  function ScanningToJobs(name: string, stages: seq<Stage>, spec: ScanningJobSpec, env: ScanningEnvironment)
    : ScanningOutcome
  {
    var normal := if spec.scanningType == NormalScanning then RunAll(spec.scannings, NormalTask(name, env))
                  else Run([], None);
    if normal.err.Some? then ScanningOutcome([], normal.err, spec)
    else
      var refName := ReferredJobName(spec);
      var origin := OriginReferredTargets(stages, refName, refName);
      if spec.source == SourceFromJob && origin.Err? then
        ScanningOutcome(normal.done, Some(OriginLookupPrefix + refName + OriginLookupMiddle + origin.msg), spec)
      else
        var updated := if spec.source == SourceFromJob
                       then spec.(jobName := refName, targetServices := origin.value) else spec;
        var service := if spec.scanningType == ServiceScanning
                       then RunAll(ScanPairs(updated.targetServices, updated.serviceAndScannings), ServiceTask(name, env))
                       else Run([], None);
        if service.err.Some? then ScanningOutcome(normal.done + service.done, service.err, spec)
        else ScanningOutcome(normal.done + service.done, None, RenderedSpec(updated, env))
  }

  /**
   * A plain scanning job that compiles yields one task per scanning, in
   * order, each the compilation of its scanning, and keeps each scanning
   * as its compilation left it; one that fails yields no task, keeps its
   * old specification and reports the error of the first scanning that
   * failed to compile, all the scannings before it having compiled.
   */
  lemma ScanningToJobsNormal(name: string, stages: seq<Stage>, spec: ScanningJobSpec, env: ScanningEnvironment)
    requires spec.scanningType == NormalScanning
    ensures var o := ScanningToJobs(name, stages, spec, env);
      && (o.err.None? ==>
            (|o.tasks| == |spec.scannings|
             && (forall i :: 0 <= i < |spec.scannings| ==>
                  ScanningTask(name, spec.scannings[i], NormalScanning, "", "", env) == Ok(o.tasks[i]))
             && o.spec.serviceAndScannings == spec.serviceAndScannings
             && |o.spec.scannings| == |spec.scannings|
             && (forall i :: 0 <= i < |spec.scannings| ==>
                  o.spec.scannings[i] == RenderedScanning(spec.scannings[i], NormalScanning, "", "", env))))
      && (RunAll(spec.scannings, NormalTask(name, env)).err.Some? ==>
            (o.tasks == [] && o.spec == spec && o.err.Some?
             && exists i :: 0 <= i < |spec.scannings|
                  && ScanningTask(name, spec.scannings[i], NormalScanning, "", "", env) == Err(o.err.value)
                  && forall k :: 0 <= k < i ==> ScanningTask(name, spec.scannings[k], NormalScanning, "", "", env).Ok?))
  {
    var f := NormalTask(name, env);
    var normal := RunAll(spec.scannings, f);
    if normal.err.None? {
      RunAllOk(spec.scannings, f);
    } else {
      RunAllStops(spec.scannings, f);
      var i := |normal.done|;
      assert f(spec.scannings[i]) == Err(normal.err.value);
      forall k | 0 <= k < i
        ensures ScanningTask(name, spec.scannings[k], NormalScanning, "", "", env).Ok?
      {
        assert f(spec.scannings[k]) == Ok(normal.done[k]);
      }
    }
  }

  /**
   * A service scanning job that compiles yields one task per configured
   * scanning of each selected target (its upstream job's targets for a
   * FromJob job), target by target; it keeps those targets, and each
   * configured scanning rendered once per target that selected it. When
   * any step fails the job keeps its old specification.
   */
  lemma ScanningToJobsService(name: string, stages: seq<Stage>, spec: ScanningJobSpec, env: ScanningEnvironment)
    requires spec.scanningType == ServiceScanning
    ensures var o := ScanningToJobs(name, stages, spec, env);
      && (o.err.None? ==>
            var u := if spec.source == SourceFromJob
                     then spec.(jobName := ReferredJobName(spec),
                                targetServices := OriginReferredTargets(stages, ReferredJobName(spec),
                                                                        ReferredJobName(spec)).value)
                     else spec;
            (o.spec == u.(serviceAndScannings := RenderedForTargets(u.targetServices, u.serviceAndScannings, env))
            && var pairs := ScanPairs(u.targetServices, u.serviceAndScannings);
               |o.tasks| == |pairs|
               && forall k :: 0 <= k < |pairs| ==>
                    ScanningTask(name, pairs[k].scanning, ServiceScanning, pairs[k].serviceName, pairs[k].serviceModule, env)
                      == Ok(o.tasks[k])))
      && (o.err.Some? ==> o.spec == spec)
  {
    var o := ScanningToJobs(name, stages, spec, env);
    if o.err.None? {
      var u := if spec.source == SourceFromJob
               then spec.(jobName := ReferredJobName(spec),
                          targetServices := OriginReferredTargets(stages, ReferredJobName(spec),
                                                                  ReferredJobName(spec)).value)
               else spec;
      var pairs := ScanPairs(u.targetServices, u.serviceAndScannings);
      var f := ServiceTask(name, env);
      RunAllOk(pairs, f);
      assert [] + RunAll(pairs, f).done == RunAll(pairs, f).done;
      forall k | 0 <= k < |pairs|
        ensures ScanningTask(name, pairs[k].scanning, ServiceScanning, pairs[k].serviceName, pairs[k].serviceModule, env)
                  == Ok(o.tasks[k])
      {
        assert f(pairs[k]) == Ok(RunAll(pairs, f).done[k]);
      }
    }
  }

  /**
   * The plain scannings compiled in order, up to the first failure;
   * `rendered` holds the scannings as their compilations left them.
   */
  method NormalTasks(name: string, scannings: seq<ScanningModule>, env: ScanningEnvironment)
    returns (tasks: seq<JobTask>, err: Option<string>, rendered: seq<ScanningModule>)
    ensures Run(tasks, err) == RunAll(scannings, NormalTask(name, env))
    ensures err.None? ==> rendered == RenderedScannings(scannings, env)
  {
    ghost var f := NormalTask(name, env);
    tasks := [];
    rendered := [];
    var i := 0;
    while i < |scannings|
      invariant 0 <= i <= |scannings|
      invariant RunAll(scannings, f) == Prepend(tasks, RunAll(scannings[i..], f))
      invariant |rendered| == i
      invariant forall k :: 0 <= k < i ==> rendered[k] == RenderedScanning(scannings[k], NormalScanning, "", "", env)
    {
      RunAllAt(scannings, i, f);
      var jobTask, after := ToJobTask(name, scannings[i], NormalScanning, "", "", env);
      if jobTask.Err? {
        assert tasks + [] == tasks;
        return tasks, Some(jobTask.msg), rendered;
      }
      ScanningTaskPassesLookups(name, scannings[i], NormalScanning, "", "", env);
      PrependAssoc(tasks, [jobTask.value], RunAll(scannings[i + 1..], f));
      tasks := tasks + [jobTask.value];
      rendered := rendered + [after];
      i := i + 1;
    }
    assert scannings[i..] == [];
    assert tasks + [] == tasks;
    assert rendered == RenderedScannings(scannings, env);
    err := None;
  }

  /** The tasks one configured entry contributes for target `t`: none when `t` does not select it. */
  function SelectedTasks(name: string, t: ServiceTestTarget, e: ServiceAndScannings, env: ScanningEnvironment)
    : Result<seq<JobTask>>
  {
    if !ScanningFor(t, e) then Ok([])
    else match ScanningTask(name, e.scanning, ServiceScanning, e.serviceName, e.serviceModule, env)
         case Err(m) => Err(m)
         case Ok(task) => Ok([task])
  }

  /** Compiling the scannings configured for a target from the `j`-th on, one entry at a time. */
  lemma TargetRunStep(name: string, t: ServiceTestTarget, sas: seq<ServiceAndScannings>, j: nat,
                      env: ScanningEnvironment)
    requires j < |sas|
    ensures var f := ServiceTask(name, env);
      var later := RunAll(TargetScannings(t, sas[j + 1..]), f);
      var r := SelectedTasks(name, t, sas[j], env);
      RunAll(TargetScannings(t, sas[j..]), f)
        == if r.Err? then Run([], Some(r.msg)) else Prepend(r.value, later)
  {
    var f := ServiceTask(name, env);
    TargetScanningsAt(t, sas, j);
    if ScanningFor(t, sas[j]) {
      RunAllCons(sas[j], TargetScannings(t, sas[j + 1..]), f);
    } else {
      assert [] + TargetScannings(t, sas[j + 1..]) == TargetScannings(t, sas[j + 1..]);
    }
  }

  /** Rendering the entries configured for a target, one entry at a time. */
  lemma TargetRenderStep(t: ServiceTestTarget, sas: seq<ServiceAndScannings>, j: nat, env: ScanningEnvironment)
    requires j < |sas|
    ensures RenderedForTarget(t, sas[..j + 1], env) == RenderedForTarget(t, sas[..j], env) + [RenderedEntry(t, sas[j], env)]
  {
  }

  /**
   * One configured entry compiled when target `t` selects it; `after` is
   * the entry as that leaves it.
   */
  method CompileIfSelected(name: string, t: ServiceTestTarget, e: ServiceAndScannings, env: ScanningEnvironment)
    returns (r: Result<seq<JobTask>>, after: ServiceAndScannings)
    ensures r == SelectedTasks(name, t, e, env)
    ensures r.Ok? ==> after == RenderedEntry(t, e, env)
  {
    if e.serviceName != t.serviceName || e.serviceModule != t.serviceModule {
      return Ok([]), e;
    }
    var task, rendered := ToJobTask(name, e.scanning, ServiceScanning, e.serviceName, e.serviceModule, env);
    after := e.(scanning := rendered);
    if task.Err? {
      return Err(task.msg), after;
    }
    ScanningTaskPassesLookups(name, e.scanning, ServiceScanning, e.serviceName, e.serviceModule, env);
    r := Ok([task.value]);
  }

  /**
   * The scannings configured for one target compiled in order, up to the
   * first failure; `next` holds the configured scannings, entry by entry,
   * as the compilations left them.
   */
  method TargetTasks(name: string, target: ServiceTestTarget, sas: seq<ServiceAndScannings>, env: ScanningEnvironment)
    returns (tasks: seq<JobTask>, err: Option<string>, next: seq<ServiceAndScannings>)
    ensures Run(tasks, err) == RunAll(TargetScannings(target, sas), ServiceTask(name, env))
    ensures err.None? ==> next == RenderedForTarget(target, sas, env)
  {
    ghost var f := ServiceTask(name, env);
    tasks := [];
    next := [];
    var j := 0;
    assert sas[..0] == [];
    while j < |sas|
      invariant 0 <= j <= |sas|
      invariant RunAll(TargetScannings(target, sas), f) == Prepend(tasks, RunAll(TargetScannings(target, sas[j..]), f))
      invariant next == RenderedForTarget(target, sas[..j], env)
    {
      TargetRunStep(name, target, sas, j, env);
      TargetRenderStep(target, sas, j, env);
      var found, after := CompileIfSelected(name, target, sas[j], env);
      if found.Err? {
        assert tasks + [] == tasks;
        return tasks, Some(found.msg), next;
      }
      PrependAssoc(tasks, found.value, RunAll(TargetScannings(target, sas[j + 1..]), f));
      tasks := tasks + found.value;
      next := next + [after];
      j := j + 1;
    }
    assert sas[j..] == [] && sas[..j] == sas;
    assert tasks + [] == tasks;
    err := None;
  }

  /**
   * For each target, each scanning configured for it compiled in order,
   * up to the first failure, each compilation starting from the state the
   * previous ones left; `rendered` holds the configured scannings as the
   * compilations left them.
   */
  method ServiceTasks(name: string, targets: seq<ServiceTestTarget>, sas: seq<ServiceAndScannings>,
                      env: ScanningEnvironment)
    returns (tasks: seq<JobTask>, err: Option<string>, rendered: seq<ServiceAndScannings>)
    ensures Run(tasks, err) == RunAll(ScanPairs(targets, sas), ServiceTask(name, env))
    ensures err.None? ==> rendered == RenderedForTargets(targets, sas, env)
  {
    ghost var f := ServiceTask(name, env);
    tasks := [];
    rendered := sas;
    var i := 0;
    assert targets[..0] == [];
    while i < |targets|
      invariant 0 <= i <= |targets|
      invariant RunAll(ScanPairs(targets, sas), f) == Prepend(tasks, RunAll(ScanPairs(targets[i..], sas), f))
      invariant rendered == RenderedForTargets(targets[..i], sas, env)
    {
      ScanPairsAt(targets, i, sas);
      RunAllConcat(TargetScannings(targets[i], sas), ScanPairs(targets[i + 1..], sas), f);
      RenderedForTargetsCount(targets[..i], sas, env);
      TargetRunIgnoresRepos(name, targets[i], rendered, sas, env);
      var more, failure, next := TargetTasks(name, targets[i], rendered, env);
      if failure.Some? {
        PrependAssoc(tasks, more, Run([], failure));
        assert more + [] == more;
        return tasks + more, failure, next;
      }
      PrependAssoc(tasks, more, RunAll(ScanPairs(targets[i + 1..], sas), f));
      tasks := tasks + more;
      assert targets[..i + 1][..i] == targets[..i];
      rendered := next;
      i := i + 1;
    }
    assert targets[i..] == [];
    assert targets[..i] == targets;
    assert tasks + [] == tasks;
    err := None;
  }

  // =====================================================================
  // Repositories and variables taken over from a saved configuration

  /**
   * The repositories are the saved ones, in order, with only their branch
   * settings (branch, tag, pull requests, filter) possibly replaced.
   */
  predicate FollowsSaved(r: seq<Repository>, saved: seq<Repository>)
  {
    |r| == |saved|
    && forall i :: 0 <= i < |r| ==>
         r[i] == DefaultNamespace(saved[i]).(branch := r[i].branch, tag := r[i].tag, pr := r[i].pr,
                                             prs := r[i].prs, filterRegexp := r[i].filterRegexp)
  }

  /** The variables are the saved ones, in order, by key. */
  predicate KeysFrom(kv: seq<KeyVal>, saved: seq<KeyVal>)
  {
    |kv| == |saved| && forall i :: 0 <= i < |kv| ==> kv[i].key == saved[i].key
  }

  lemma FollowsSavedTransitive(x: seq<Repository>, y: seq<Repository>, z: seq<Repository>)
    requires FollowsSaved(x, y) && FollowsSaved(y, z)
    ensures FollowsSaved(x, z)
  {
    forall i | 0 <= i < |x|
      ensures x[i] == DefaultNamespace(z[i]).(branch := x[i].branch, tag := x[i].tag, pr := x[i].pr,
                                              prs := x[i].prs, filterRegexp := x[i].filterRegexp)
    {
      assert DefaultNamespace(y[i]) == y[i];
    }
  }

  // =====================================================================
  // SetPreset

  /**
   * A scanning brought up to its saved configuration when the scanning is
   * found: the saved repositories with the user's branch settings, the
   * saved variables with the user's values. A scanning not found is kept.
   */
  function PresetScanning(s: ScanningModule, store: map<string, ScanningInfo>): (r: ScanningModule)
    ensures r.name == s.name && r.projectName == s.projectName
    ensures s.name !in store ==> r == s
    ensures s.name in store ==>
      r == s.(repos := r.repos, keyVals := r.keyVals)
      && FollowsSaved(r.repos, store[s.name].repos) && KeysFrom(r.keyVals, store[s.name].envs)
  {
    if s.name in store
    then s.(repos := MergedRepos(store[s.name].repos, s.repos),
            keyVals := RenderedKeyVals(s.keyVals, store[s.name].envs))
    else s
  }

  function PresetScannings(ss: seq<ScanningModule>, store: map<string, ScanningInfo>): seq<ScanningModule>
  {
    seq(|ss|, i requires 0 <= i < |ss| => PresetScanning(ss[i], store))
  }

  function PresetServiceScannings(sas: seq<ServiceAndScannings>, store: map<string, ScanningInfo>)
    : seq<ServiceAndScannings>
  {
    seq(|sas|, i requires 0 <= i < |sas| => sas[i].(scanning := PresetScanning(sas[i].scanning, store)))
  }

  /** How configured service modules are indexed: "service/module". */
  function ServiceModuleKey(serviceName: string, serviceModule: string): string
  {
    serviceName + "/" + serviceModule
  }

  /** Service modules whose service names lack '/' get different keys. */
  lemma ServiceModuleKeyInjective(s1: string, m1: string, s2: string, m2: string)
    requires '/' !in s1 && '/' !in s2
    ensures ServiceModuleKey(s1, m1) == ServiceModuleKey(s2, m2) <==> s1 == s2 && m1 == m2
  {
    if ServiceModuleKey(s1, m1) == ServiceModuleKey(s2, m2) {
      SeparatedPairInjective('/', s1, m1, s2, m2);
    }
  }

  function ServiceKeys(sas: seq<ServiceAndScannings>): set<string>
  {
    set e | e in sas :: ServiceModuleKey(e.serviceName, e.serviceModule)
  }

  function KeepConfigured(keys: set<string>): ServiceTestTarget -> Option<ServiceTestTarget>
  {
    (t: ServiceTestTarget) => if ServiceModuleKey(t.serviceName, t.serviceModule) in keys then Some(t) else None
  }

  /** The targets that have a scanning configured for their service module. */
  function PresetTargets(targets: seq<ServiceTestTarget>, sas: seq<ServiceAndScannings>): seq<ServiceTestTarget>
  {
    FilterMap(targets, KeepConfigured(ServiceKeys(sas)))
  }

  /**
   * SetPreset: plain scannings (for a plain job) and service scannings
   * (for a service job) found in the store take their saved repositories
   * and variables, everything else about them kept; a FromJob job records
   * the job it quotes; service scanning keeps only the targets some
   * scanning is configured for; nothing else changes.
   */
  function PresetSpec(spec: ScanningJobSpec, store: map<string, ScanningInfo>): (r: ScanningJobSpec)
    ensures r.scanningType == spec.scanningType && r.source == spec.source && r.jobName == spec.jobName
    ensures r.originJobName == (if spec.source == SourceFromJob then spec.jobName else spec.originJobName)
    ensures |r.scannings| == |spec.scannings| && |r.serviceAndScannings| == |spec.serviceAndScannings|
    ensures (spec.scanningType != NormalScanning ==> r.scannings == spec.scannings)
    ensures (spec.scanningType != ServiceScanning ==>
          r.serviceAndScannings == spec.serviceAndScannings && r.targetServices == spec.targetServices)
    ensures (forall i :: 0 <= i < |spec.scannings| && spec.scanningType == NormalScanning ==>
          var s := spec.scannings[i];
          (s.name in store ==>
             (r.scannings[i] == s.(repos := r.scannings[i].repos, keyVals := r.scannings[i].keyVals)
              && FollowsSaved(r.scannings[i].repos, store[s.name].repos)
              && KeysFrom(r.scannings[i].keyVals, store[s.name].envs)))
          && (s.name !in store ==> r.scannings[i] == s))
    ensures (forall i :: 0 <= i < |spec.serviceAndScannings| && spec.scanningType == ServiceScanning ==>
          var e := spec.serviceAndScannings[i];
          r.serviceAndScannings[i].serviceName == e.serviceName
          && r.serviceAndScannings[i].serviceModule == e.serviceModule
          && (e.scanning.name in store ==>
                r.serviceAndScannings[i].scanning
                  == e.scanning.(repos := r.serviceAndScannings[i].scanning.repos,
                                 keyVals := r.serviceAndScannings[i].scanning.keyVals)
                && FollowsSaved(r.serviceAndScannings[i].scanning.repos, store[e.scanning.name].repos)
                && KeysFrom(r.serviceAndScannings[i].scanning.keyVals, store[e.scanning.name].envs))
          && (e.scanning.name !in store ==> r.serviceAndScannings[i] == e))
  {
    var s1 := if spec.scanningType == NormalScanning
              then spec.(scannings := PresetScannings(spec.scannings, store)) else spec;
    var s2 := if spec.source == SourceFromJob then s1.(originJobName := s1.jobName) else s1;
    if spec.scanningType == ServiceScanning
    then s2.(serviceAndScannings := PresetServiceScannings(spec.serviceAndScannings, store),
             targetServices := PresetTargets(spec.targetServices, spec.serviceAndScannings))
    else s2
  }

  /**
   * The preset keeps the targets in order and keeps exactly those with a
   * configured scanning for their service module (for service names
   * without '/', which the key would otherwise run together).
   */
  lemma PresetTargetsSelected(targets: seq<ServiceTestTarget>, sas: seq<ServiceAndScannings>)
    ensures var r := PresetTargets(targets, sas);
      var idx := KeptIndices(targets, KeepConfigured(ServiceKeys(sas)));
      |r| == |idx|
      && (forall k :: 0 <= k < |idx| ==> idx[k] < |targets| && r[k] == targets[idx[k]])
      && (forall k, l :: 0 <= k < l < |idx| ==> idx[k] < idx[l])
      && (forall i :: 0 <= i < |targets| && (exists e :: e in sas && ScanningFor(targets[i], e)) ==> i in idx)
      && (forall k :: (0 <= k < |idx| && '/' !in targets[idx[k]].serviceName
                       && forall e :: e in sas ==> '/' !in e.serviceName) ==>
            exists e :: e in sas && ScanningFor(targets[idx[k]], e))
  {
    var f := KeepConfigured(ServiceKeys(sas));
    var idx := KeptIndices(targets, f);
    FilterMapKeeps(targets, f);
    forall i | 0 <= i < |targets| && (exists e :: e in sas && ScanningFor(targets[i], e))
      ensures f(targets[i]).Some?
    {
      var e :| e in sas && ScanningFor(targets[i], e);
      assert ServiceModuleKey(e.serviceName, e.serviceModule) in ServiceKeys(sas);
    }
    forall k | (0 <= k < |idx| && '/' !in targets[idx[k]].serviceName
                && forall e :: e in sas ==> '/' !in e.serviceName)
      ensures exists e :: e in sas && ScanningFor(targets[idx[k]], e)
    {
      var t := targets[idx[k]];
      assert ServiceModuleKey(t.serviceName, t.serviceModule) in ServiceKeys(sas);
      var e :| e in sas && ServiceModuleKey(e.serviceName, e.serviceModule) == ServiceModuleKey(t.serviceName, t.serviceModule);
      SeparatedPairInjective('/', t.serviceName, t.serviceModule, e.serviceName, e.serviceModule);
    }
  }

  /** The plain scannings, each brought up to its saved configuration. */
  method PresetAllScannings(ss: seq<ScanningModule>, store: map<string, ScanningInfo>)
    returns (r: seq<ScanningModule>)
    ensures r == PresetScannings(ss, store)
  {
    r := [];
    var i := 0;
    while i < |ss|
      invariant 0 <= i <= |ss|
      invariant |r| == i && forall k :: 0 <= k < i ==> r[k] == PresetScanning(ss[k], store)
    {
      var scanning := PresetOne(ss[i], store);
      r := r + [scanning];
      i := i + 1;
    }
  }

  /** One scanning brought up to its saved configuration, when it is found. */
  method PresetOne(scanning: ScanningModule, store: map<string, ScanningInfo>) returns (r: ScanningModule)
    ensures r == PresetScanning(scanning, store)
  {
    r := scanning;
    if scanning.name !in store {
      return;
    }
    var info := store[scanning.name];
    var repos := MergeRepos(info.repos, scanning.repos);
    var keyVals := RenderKeyVals(scanning.keyVals, info.envs);
    r := scanning.(repos := repos, keyVals := keyVals);
  }

  /** The service scannings brought up to their saved configurations, and the service modules configured. */
  method PresetAllServiceScannings(sas: seq<ServiceAndScannings>, store: map<string, ScanningInfo>)
    returns (r: seq<ServiceAndScannings>, serviceMap: set<string>)
    ensures r == PresetServiceScannings(sas, store)
    ensures serviceMap == ServiceKeys(sas)
  {
    r := [];
    serviceMap := {};
    var i := 0;
    while i < |sas|
      invariant 0 <= i <= |sas|
      invariant |r| == i && forall k :: 0 <= k < i ==> r[k] == sas[k].(scanning := PresetScanning(sas[k].scanning, store))
      invariant serviceMap == ServiceKeys(sas[..i])
    {
      var entry := sas[i];
      serviceMap := serviceMap + {entry.serviceName + "/" + entry.serviceModule};
      var scanning := PresetOne(entry.scanning, store);
      r := r + [entry.(scanning := scanning)];
      assert sas[..i + 1] == sas[..i] + [entry];
      i := i + 1;
    }
    assert sas[..i] == sas;
  }

  /** The targets whose service module is configured, in order. */
  method FilterConfiguredTargets(targets: seq<ServiceTestTarget>, serviceMap: set<string>)
    returns (filtered: seq<ServiceTestTarget>)
    ensures filtered == FilterMap(targets, KeepConfigured(serviceMap))
  {
    filtered := [];
    var i := 0;
    while i < |targets|
      invariant 0 <= i <= |targets|
      invariant filtered == FilterMap(targets[..i], KeepConfigured(serviceMap))
    {
      FilterMapSnoc(targets, i, KeepConfigured(serviceMap));
      var target := targets[i];
      if target.serviceName + "/" + target.serviceModule in serviceMap {
        filtered := filtered + [target];
      }
      i := i + 1;
    }
    assert targets[..i] == targets;
  }

  // =====================================================================
  // MergeArgs

  /** The first argument scanning with the name. */
  function FirstNamed(args: seq<ScanningModule>, name: string): (r: Option<nat>)
    ensures r.Some? ==> (r.value < |args| && args[r.value].name == name
      && forall k :: 0 <= k < r.value ==> args[k].name != name)
    ensures r.None? ==> forall k :: 0 <= k < |args| ==> args[k].name != name
  {
    if |args| == 0 then None
    else if args[0].name == name then Some(0)
    else match FirstNamed(args[1..], name)
      case None => None
      case Some(k) => Some(k + 1)
  }

  /**
   * A stored scanning merged with an argument: its own repositories with
   * the argument's branch settings, its own variables with the argument's
   * values.
   */
  function MergeScanning(stored: ScanningModule, arg: ScanningModule): (r: ScanningModule)
    ensures r == stored.(repos := r.repos, keyVals := r.keyVals)
    ensures FollowsSaved(r.repos, stored.repos) && KeysFrom(r.keyVals, stored.keyVals)
  {
    stored.(repos := MergedRepos(stored.repos, arg.repos), keyVals := RenderedKeyVals(arg.keyVals, stored.keyVals))
  }

  function MergedScanning(s: ScanningModule, args: seq<ScanningModule>): ScanningModule
  {
    match FirstNamed(args, s.name)
    case None => s
    case Some(k) => MergeScanning(s, args[k])
  }

  /** The service scannings pair up by scanning name and service name (not module). */
  predicate SameService(a: ServiceAndScannings, b: ServiceAndScannings)
  {
    a.scanning.name == b.scanning.name && a.serviceName == b.serviceName
  }

  function FirstSameService(args: seq<ServiceAndScannings>, e: ServiceAndScannings): (r: Option<nat>)
    ensures r.Some? ==> (r.value < |args| && SameService(e, args[r.value])
      && forall k :: 0 <= k < r.value ==> !SameService(e, args[k]))
    ensures r.None? ==> forall k :: 0 <= k < |args| ==> !SameService(e, args[k])
  {
    if |args| == 0 then None
    else if SameService(e, args[0]) then Some(0)
    else match FirstSameService(args[1..], e)
      case None => None
      case Some(k) => Some(k + 1)
  }

  function MergedServiceScanning(e: ServiceAndScannings, args: seq<ServiceAndScannings>): ServiceAndScannings
  {
    match FirstSameService(args, e)
    case None => e
    case Some(k) => e.(scanning := MergeScanning(e.scanning, args[k].scanning))
  }

  /**
   * Merging keeps every stored scanning, in order; one without an
   * argument of its name is unchanged, one with keeps all but its
   * repositories (still its own, with branch settings possibly replaced)
   * and variables (still its own keys).
   */
  function MergedScannings(ss: seq<ScanningModule>, args: seq<ScanningModule>): (r: seq<ScanningModule>)
    ensures |r| == |ss|
    ensures forall i :: 0 <= i < |ss| ==>
      (FirstNamed(args, ss[i].name).None? ==> r[i] == ss[i])
      && (FirstNamed(args, ss[i].name).Some? ==>
            r[i] == ss[i].(repos := r[i].repos, keyVals := r[i].keyVals)
            && FollowsSaved(r[i].repos, ss[i].repos) && KeysFrom(r[i].keyVals, ss[i].keyVals))
  {
    seq(|ss|, i requires 0 <= i < |ss| => MergedScanning(ss[i], args))
  }

  function MergedServiceScannings(sas: seq<ServiceAndScannings>, args: seq<ServiceAndScannings>)
    : seq<ServiceAndScannings>
  {
    seq(|sas|, i requires 0 <= i < |sas| => MergedServiceScanning(sas[i], args))
  }

  /**
   * MergeArgs on the specification: a plain job merges each stored
   * scanning with the first argument of its name; a service job takes the
   * arguments' targets and merges each service scanning with the first
   * argument of its scanning and service name.
   */
  function MergedScanningSpec(spec: ScanningJobSpec, args: ScanningJobSpec): ScanningJobSpec
  {
    var s1 := if spec.scanningType == NormalScanning
              then spec.(scannings := MergedScannings(spec.scannings, args.scannings)) else spec;
    if spec.scanningType == ServiceScanning
    then s1.(targetServices := args.targetServices,
             serviceAndScannings := MergedServiceScannings(spec.serviceAndScannings, args.serviceAndScannings))
    else s1
  }

  /** Merging the same arguments twice is merging them once. */
  lemma MergedScanningSpecIdempotent(spec: ScanningJobSpec, args: ScanningJobSpec)
    ensures MergedScanningSpec(MergedScanningSpec(spec, args), args) == MergedScanningSpec(spec, args)
  {
    var once := MergedScanningSpec(spec, args);
    if spec.scanningType == NormalScanning {
      forall i | 0 <= i < |spec.scannings|
        ensures MergedScanning(once.scannings[i], args.scannings) == once.scannings[i]
      {
        var s := spec.scannings[i];
        match FirstNamed(args.scannings, s.name)
        case None =>
        case Some(k) =>
          MergeReposIdempotent(s.repos, args.scannings[k].repos);
          RenderKeyValsIdempotent(args.scannings[k].keyVals, s.keyVals);
      }
    }
    if spec.scanningType == ServiceScanning {
      forall i | 0 <= i < |spec.serviceAndScannings|
        ensures MergedServiceScanning(once.serviceAndScannings[i], args.serviceAndScannings)
                == once.serviceAndScannings[i]
      {
        var e := spec.serviceAndScannings[i];
        match FirstSameService(args.serviceAndScannings, e)
        case None =>
        case Some(k) =>
          MergeReposIdempotent(e.scanning.repos, args.serviceAndScannings[k].scanning.repos);
          RenderKeyValsIdempotent(args.serviceAndScannings[k].scanning.keyVals, e.scanning.keyVals);
      }
    }
  }

  /** Each stored scanning merged with the first argument of its name. */
  method MergeScanningArgs(ss: seq<ScanningModule>, args: seq<ScanningModule>) returns (r: seq<ScanningModule>)
    ensures r == MergedScannings(ss, args)
  {
    r := [];
    var i := 0;
    while i < |ss|
      invariant 0 <= i <= |ss|
      invariant |r| == i && forall k :: 0 <= k < i ==> r[k] == MergedScanning(ss[k], args)
    {
      var scanning := ss[i];
      var j := 0;
      while j < |args|
        invariant 0 <= j <= |args|
        invariant forall k :: 0 <= k < j ==> args[k].name != scanning.name
      {
        if scanning.name == args[j].name {
          var repos := MergeRepos(scanning.repos, args[j].repos);
          var keyVals := RenderKeyVals(args[j].keyVals, scanning.keyVals);
          scanning := scanning.(repos := repos, keyVals := keyVals);
          break;
        }
        j := j + 1;
      }
      r := r + [scanning];
      i := i + 1;
    }
  }

  /** Each service scanning merged with the first argument of its scanning and service name. */
  method MergeServiceScanningArgs(sas: seq<ServiceAndScannings>, args: seq<ServiceAndScannings>)
    returns (r: seq<ServiceAndScannings>)
    ensures r == MergedServiceScannings(sas, args)
  {
    r := [];
    var i := 0;
    while i < |sas|
      invariant 0 <= i <= |sas|
      invariant |r| == i && forall k :: 0 <= k < i ==> r[k] == MergedServiceScanning(sas[k], args)
    {
      var testing := sas[i];
      var j := 0;
      while j < |args|
        invariant 0 <= j <= |args|
        invariant forall k :: 0 <= k < j ==> !SameService(testing, args[k])
      {
        if testing.scanning.name == args[j].scanning.name && testing.serviceName == args[j].serviceName {
          var repos := MergeRepos(testing.scanning.repos, args[j].scanning.repos);
          var keyVals := RenderKeyVals(args[j].scanning.keyVals, testing.scanning.keyVals);
          testing := testing.(scanning := testing.scanning.(repos := repos, keyVals := keyVals));
          break;
        }
        j := j + 1;
      }
      r := r + [testing];
      i := i + 1;
    }
  }

  // =====================================================================
  // UpdateWithLatestSetting

  /** A stored scanning and a latest one name the same scanning of the same project. */
  predicate SameScanning(a: ScanningModule, b: ScanningModule)
  {
    a.name == b.name && a.projectName == b.projectName
  }

  /** A latest scanning refreshed from its saved configuration. */
  function RefreshLatest(l: ScanningModule, info: ScanningInfo): (r: ScanningModule)
    ensures r == l.(repos := r.repos, keyVals := r.keyVals)
    ensures FollowsSaved(r.repos, info.repos) && KeysFrom(r.keyVals, info.envs)
  {
    l.(repos := MergedRepos(info.repos, l.repos), keyVals := RenderedKeyVals(l.keyVals, info.envs))
  }

  /** A stored scanning merged onto the refreshed latest one: the latest repositories and variables, the user's choices. */
  function MergeLatest(s: ScanningModule, l: ScanningModule): (r: ScanningModule)
    ensures r == s.(repos := r.repos, keyVals := r.keyVals)
    ensures FollowsSaved(r.repos, l.repos) && KeysFrom(r.keyVals, l.keyVals)
  {
    s.(repos := MergedRepos(l.repos, s.repos), keyVals := RenderedKeyVals(s.keyVals, l.keyVals))
  }

  /**
   * The stored scannings matching one latest scanning, in stored order,
   * each merged onto the latest scanning; the latest scanning is refreshed
   * again before each match, and without a saved configuration nothing
   * matches. The merge updates the refreshed repositories in place and
   * hands them to the stored scanning, so the latest scanning goes on with
   * the merged repositories: a later match starts from the choices of the
   * earlier one.
   */
  function LatestMerges(l: ScanningModule, stored: seq<ScanningModule>, store: map<string, ScanningInfo>)
    : seq<ScanningModule>
    decreases |stored|
  {
    if |stored| == 0 then []
    else if SameScanning(stored[0], l) && l.name in store then
      var refreshed := RefreshLatest(l, store[l.name]);
      var merged := MergeLatest(stored[0], refreshed);
      [merged] + LatestMerges(refreshed.(repos := merged.repos), stored[1..], store)
    else LatestMerges(l, stored[1..], store)
  }

  /**
   * Two stored scannings matching one latest scanning: the second is
   * refreshed from the saved repositories carrying the first one's merged
   * choices, not the latest scanning's own.
   */
  lemma {:induction false} LatestMergesCarryChoices(l: ScanningModule, s1: ScanningModule, s2: ScanningModule,
                                                    store: map<string, ScanningInfo>)
    requires SameScanning(s1, l) && SameScanning(s2, l) && l.name in store
    ensures var r := LatestMerges(l, [s1, s2], store);
      var info := store[l.name];
      |r| == 2
      && r[0].repos == MergedRepos(MergedRepos(info.repos, l.repos), s1.repos)
      && r[1].repos == MergedRepos(MergedRepos(info.repos, r[0].repos), s2.repos)
  {
    var info := store[l.name];
    var refreshed := RefreshLatest(l, info);
    var merged := MergeLatest(s1, refreshed);
    var l2 := refreshed.(repos := merged.repos);
    assert [s1, s2][1..] == [s2];
    assert [s2][1..] == [];
    assert LatestMerges(l2, [s2], store) == [MergeLatest(s2, RefreshLatest(l2, info))];
    assert LatestMerges(l, [s1, s2], store) == [merged] + LatestMerges(l2, [s2], store);
  }

  /** For each latest scanning in order, the stored scannings matching it, merged. */
  function UpdatedScannings(latest: seq<ScanningModule>, stored: seq<ScanningModule>, store: map<string, ScanningInfo>)
    : seq<ScanningModule>
  {
    if |latest| == 0 then []
    else UpdatedScannings(latest[..|latest| - 1], stored, store) + LatestMerges(latest[|latest| - 1], stored, store)
  }

  /**
   * A scanning merged onto a latest one: a stored scanning with the same
   * name and project, changed only in repositories that follow the saved
   * ones and variables keyed as the saved ones.
   */
  predicate UpdatedFrom(x: ScanningModule, s: ScanningModule, l: ScanningModule, store: map<string, ScanningInfo>)
  {
    SameScanning(s, l) && l.name in store
    && x == s.(repos := x.repos, keyVals := x.keyVals)
    && FollowsSaved(x.repos, store[l.name].repos) && KeysFrom(x.keyVals, store[l.name].envs)
  }

  /**
   * Each merge comes from a stored scanning matching the latest one, and
   * each stored scanning matching it yields a merge (when the scanning
   * has a saved configuration).
   */
  lemma {:induction false} LatestMergesFrom(l: ScanningModule, stored: seq<ScanningModule>,
                                            store: map<string, ScanningInfo>, l0: ScanningModule)
    requires l.name == l0.name && l.projectName == l0.projectName
    ensures forall x :: x in LatestMerges(l, stored, store) ==> exists s :: s in stored && UpdatedFrom(x, s, l0, store)
    ensures forall s :: s in stored && SameScanning(s, l0) && l0.name in store ==>
      exists x :: x in LatestMerges(l, stored, store) && UpdatedFrom(x, s, l0, store)
    decreases |stored|
  {
    if |stored| > 0 {
      assert stored == [stored[0]] + stored[1..];
      if SameScanning(stored[0], l) && l.name in store {
        var refreshed := RefreshLatest(l, store[l.name]);
        var x := MergeLatest(stored[0], refreshed);
        LatestMergesFrom(refreshed.(repos := x.repos), stored[1..], store, l0);
        FollowsSavedTransitive(x.repos, refreshed.repos, store[l.name].repos);
        assert x.keyVals == RenderedKeyVals(stored[0].keyVals, refreshed.keyVals);
        assert UpdatedFrom(x, stored[0], l0, store);
      } else {
        LatestMergesFrom(l, stored[1..], store, l0);
      }
    }
  }

  /**
   * After the update, every scanning is a stored scanning some latest
   * scanning matches, merged onto it; and every stored scanning a latest
   * scanning with a saved configuration matches is there, merged.
   */
  lemma {:induction false} UpdatedScanningsFrom(latest: seq<ScanningModule>, stored: seq<ScanningModule>,
                                                store: map<string, ScanningInfo>)
    ensures forall x :: x in UpdatedScannings(latest, stored, store) ==>
      exists l, s :: l in latest && s in stored && UpdatedFrom(x, s, l, store)
    ensures forall l, s :: l in latest && s in stored && SameScanning(s, l) && l.name in store ==>
      exists x :: x in UpdatedScannings(latest, stored, store) && UpdatedFrom(x, s, l, store)
    decreases |latest|
  {
    if |latest| > 0 {
      var init := latest[..|latest| - 1];
      var last := latest[|latest| - 1];
      UpdatedScanningsFrom(init, stored, store);
      LatestMergesFrom(last, stored, store, last);
      assert latest == init + [last];
    }
  }

  /** The stored scannings matching one latest scanning, merged onto it as it is refreshed. */
  method MergeWithLatest(l: ScanningModule, stored: seq<ScanningModule>, store: map<string, ScanningInfo>)
    returns (r: seq<ScanningModule>)
    ensures r == LatestMerges(l, stored, store)
  {
    r := [];
    var latest := l;
    var j := 0;
    while j < |stored|
      invariant 0 <= j <= |stored|
      invariant LatestMerges(l, stored, store) == r + LatestMerges(latest, stored[j..], store)
    {
      assert stored[j..][0] == stored[j] && stored[j..][1..] == stored[j + 1..];
      var scanning := stored[j];
      if scanning.name == latest.name && scanning.projectName == latest.projectName && latest.name in store {
        var info := store[latest.name];
        var repos := MergeRepos(info.repos, latest.repos);
        var keyVals := RenderKeyVals(latest.keyVals, info.envs);
        latest := latest.(repos := repos, keyVals := keyVals);
        var scanningRepos := MergeRepos(latest.repos, scanning.repos);
        var scanningKeyVals := RenderKeyVals(scanning.keyVals, latest.keyVals);
        var merged := scanning.(repos := scanningRepos, keyVals := scanningKeyVals);
        latest := latest.(repos := scanningRepos);
        AppendAssoc(r, [merged], LatestMerges(latest, stored[j + 1..], store));
        r := r + [merged];
      }
      j := j + 1;
    }
    assert r + LatestMerges(latest, stored[j..], store) == r;
  }

  /** For each latest scanning in order, the stored scannings matching it, merged. */
  method MergeLatestScannings(latest: seq<ScanningModule>, stored: seq<ScanningModule>,
                              store: map<string, ScanningInfo>)
    returns (merged: seq<ScanningModule>)
    ensures merged == UpdatedScannings(latest, stored, store)
  {
    merged := [];
    var i := 0;
    while i < |latest|
      invariant 0 <= i <= |latest|
      invariant merged == UpdatedScannings(latest[..i], stored, store)
    {
      var more := MergeWithLatest(latest[i], stored, store);
      assert latest[..i + 1][..i] == latest[..i] && latest[..i + 1][i] == latest[i];
      merged := merged + more;
      i := i + 1;
    }
    assert latest[..i] == latest;
  }

  const LatestWorkflowMissing := "failed to find the original workflow: "

  // =====================================================================
  // The scanning job

  class ScanningJob {
    var name: string
    var jobType: JobType
    var workflowName: string
    var workflowStages: seq<Stage>
    var spec: ScanningJobSpec

    constructor(name: string, jobType: JobType, workflowName: string, workflowStages: seq<Stage>,
                spec: ScanningJobSpec)
      ensures this.name == name && this.jobType == jobType && this.workflowName == workflowName
      ensures this.workflowStages == workflowStages && this.spec == spec
    {
      this.name := name;
      this.jobType := jobType;
      this.workflowName := workflowName;
      this.workflowStages := workflowStages;
      this.spec := spec;
    }

    /** Bring the scannings up to their saved configurations and drop targets nothing scans. */
    method SetPreset(store: map<string, ScanningInfo>)
      modifies this
      ensures spec == PresetSpec(old(spec), store)
      ensures name == old(name) && jobType == old(jobType) && workflowName == old(workflowName)
      ensures workflowStages == old(workflowStages)
    {
      var s := spec;
      if s.scanningType == NormalScanning {
        var scannings := PresetAllScannings(s.scannings, store);
        s := s.(scannings := scannings);
      }
      if s.source == SourceFromJob {
        s := s.(originJobName := s.jobName);
      }
      if s.scanningType == ServiceScanning {
        var sas, serviceMap := PresetAllServiceScannings(s.serviceAndScannings, store);
        var filtered := FilterConfiguredTargets(s.targetServices, serviceMap);
        s := s.(serviceAndScannings := sas, targetServices := filtered);
      }
      spec := s;
    }

    /** Forget the selected targets. */
    method ClearSelectionField()
      modifies this
      ensures spec == old(spec).(targetServices := [])
      ensures name == old(name) && jobType == old(jobType) && workflowName == old(workflowName)
      ensures workflowStages == old(workflowStages)
    {
      spec := spec.(targetServices := []);
    }

    /** Merge the runtime arguments of a job with the same name and kind. */
    method MergeArgs(args: Job)
      modifies this
      ensures name == old(name) && jobType == old(jobType) && workflowName == old(workflowName)
      ensures workflowStages == old(workflowStages)
      ensures !(old(name) == args.name && old(jobType) == args.jobType) ==> spec == old(spec)
      ensures old(name) == args.name && old(jobType) == args.jobType ==>
        spec == MergedScanningSpec(old(spec), AsScanningSpec(args.spec))
    {
      if name == args.name && jobType == args.jobType {
        var argsSpec := AsScanningSpec(args.spec);
        var s := spec;
        if s.scanningType == NormalScanning {
          var scannings := MergeScanningArgs(s.scannings, argsSpec.scannings);
          s := s.(scannings := scannings);
        }
        if s.scanningType == ServiceScanning {
          var sas := MergeServiceScanningArgs(s.serviceAndScannings, argsSpec.serviceAndScannings);
          s := s.(targetServices := argsSpec.targetServices, serviceAndScannings := sas);
        }
        spec := s;
      }
    }

    /**
     * Bring the plain scannings up to date with the latest saved workflow:
     * find the job of the same name and kind there (an error if there is
     * none) and keep the stored scannings its scannings match, merged.
     */
    method UpdateWithLatestSetting(latestStages: seq<Stage>, store: map<string, ScanningInfo>)
      returns (err: Option<string>)
      modifies this
      ensures name == old(name) && jobType == old(jobType) && workflowName == old(workflowName)
      ensures workflowStages == old(workflowStages)
      ensures FindJob(latestStages, old(name), old(jobType)).None? ==>
        err == Some(LatestWorkflowMissing + old(workflowName)) && spec == old(spec)
      ensures FindJob(latestStages, old(name), old(jobType)).Some? ==>
        var latest := AsScanningSpec(FindJob(latestStages, old(name), old(jobType)).value.spec);
        err.None? && spec == old(spec).(scannings := UpdatedScannings(latest.scannings, old(spec).scannings, store))
    {
      var found := FindJob(latestStages, name, jobType);
      if found.None? {
        return Some(LatestWorkflowMissing + workflowName);
      }
      var latest := AsScanningSpec(found.value.spec);
      var merged := MergeLatestScannings(latest.scannings, spec.scannings, store);
      spec := spec.(scannings := merged);
      err := None;
    }

    /**
     * Compile the job into its tasks; on success the job keeps the quoted
     * job's name and targets.
     */
    method ToJobs(env: ScanningEnvironment) returns (resp: seq<JobTask>, err: Option<string>)
      modifies this
      ensures name == old(name) && jobType == old(jobType) && workflowName == old(workflowName)
      ensures workflowStages == old(workflowStages)
      ensures var o := ScanningToJobs(old(name), old(workflowStages), old(spec), env);
        resp == o.tasks && err == o.err && spec == o.spec
    {
      resp := [];
      var rendered := spec.scannings;
      if spec.scanningType == NormalScanning {
        var tasks, failure, after := NormalTasks(name, spec.scannings, env);
        if failure.Some? {
          return [], failure;
        }
        resp := tasks;
        rendered := after;
      }
      var updated := spec;
      if spec.source == SourceFromJob {
        var refName := spec.jobName;
        if spec.originJobName != "" {
          refName := spec.originJobName;
        }
        var targets := GetOriginReferedJobTargets(workflowStages, refName, refName);
        if targets.Err? {
          return resp, Some(OriginLookupPrefix + refName + OriginLookupMiddle + targets.msg);
        }
        updated := updated.(jobName := refName, targetServices := targets.value);
      }
      var renderedServices := updated.serviceAndScannings;
      if spec.scanningType == ServiceScanning {
        var tasks, failure, after := ServiceTasks(name, updated.targetServices, updated.serviceAndScannings, env);
        if failure.Some? {
          return resp + tasks, failure;
        }
        resp := resp + tasks;
        renderedServices := after;
      } else {
        assert resp + [] == resp;
      }
      spec := updated.(scannings := rendered, serviceAndScannings := renderedServices);
      err := None;
    }
  }
}
