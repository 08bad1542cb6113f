/**
 * The image-distribute job: copies the images of chosen service modules
 * from a source registry to a target registry under new tags. Its service
 * modules are either chosen at run time or taken from an upstream build,
 * distribute or deploy job.
 */
module JobDistributeImage {
  import opened Common
  import opened Models
  import opened JobBuild
  import opened JobBuildJob
  import opened JobScanning

  /** The timeout of a distribute task whose job sets none. */
  const DistributeTimeout := 10

  /** Tag-rule placeholders filled in when the job compiles. */
  const WorkflowInputImageTagVariable := "{{.workflow.input.imageTag}}"
  const PreBuildImageTagVariable := "{{.job.preBuild.imageTag}}"
  const PreJobImageTagVariable := "{{.job.preJob.imageTag}}"

  // =====================================================================
  // getTimeout, getImage

  /** A task always has a timeout: the job's own, or the default for none. */
  function TaskTimeout(timeout: int): (r: int)
    ensures r != 0
    ensures timeout == 0 ==> r == DistributeTimeout
    ensures timeout != 0 ==> r == timeout
  {
    if timeout == 0 then DistributeTimeout else timeout
  }

  /** "addr/[namespace/]name:tag", the namespace segment only when there is one. */
  function RawImage(name: string, tag: string, reg: Registry): string
  {
    if |reg.namespace| > 0 then reg.regAddr + "/" + reg.namespace + "/" + name + ":" + tag
    else reg.regAddr + "/" + name + ":" + tag
  }

  /** The image reference, without a leading http:// and then without a leading https://. */
  function DistributeImage(name: string, tag: string, reg: Registry): string
  {
    TrimPrefix(TrimPrefix(RawImage(name, tag, reg), "http://"), "https://")
  }

  /** A distributed image is named as the build job names the image it builds with tag "name:tag". */
  lemma DistributeImageIsBuildImage(name: string, tag: string, reg: Registry)
    ensures DistributeImage(name, tag, reg) == BuildImage(reg, name + ":" + tag)
  {
    if |reg.namespace| > 0 {
      assert reg.regAddr + "/" + reg.namespace + "/" + name + ":" + tag
          == reg.regAddr + "/" + reg.namespace + "/" + (name + ":" + tag);
    } else {
      assert reg.regAddr + "/" + name + ":" + tag == reg.regAddr + "/" + (name + ":" + tag);
    }
  }

  /** A scheme written before the registry address stands before the whole reference. */
  lemma RawImageWithScheme(name: string, tag: string, reg: Registry, scheme: string, host: string)
    ensures RawImage(name, tag, reg.(regAddr := scheme + host)) == scheme + RawImage(name, tag, reg.(regAddr := host))
  {
    if |reg.namespace| > 0 {
      assert scheme + host + "/" + reg.namespace + "/" + name + ":" + tag
          == scheme + (host + "/" + reg.namespace + "/" + name + ":" + tag);
    } else {
      assert scheme + host + "/" + name + ":" + tag == scheme + (host + "/" + name + ":" + tag);
    }
  }

  /**
   * A registry address written with http:// or https:// names the same
   * image as the bare address, provided the bare reference does not
   * itself start with a scheme.
   */
  lemma DistributeImageDropsScheme(name: string, tag: string, reg: Registry, host: string)
    requires !HasPrefix(RawImage(name, tag, reg.(regAddr := host)), "http://")
    requires !HasPrefix(RawImage(name, tag, reg.(regAddr := host)), "https://")
    ensures DistributeImage(name, tag, reg.(regAddr := host)) == RawImage(name, tag, reg.(regAddr := host))
    ensures DistributeImage(name, tag, reg.(regAddr := "http://" + host)) == RawImage(name, tag, reg.(regAddr := host))
    ensures DistributeImage(name, tag, reg.(regAddr := "https://" + host)) == RawImage(name, tag, reg.(regAddr := host))
  {
    var bare := RawImage(name, tag, reg.(regAddr := host));
    RawImageWithScheme(name, tag, reg, "http://", host);
    RawImageWithScheme(name, tag, reg, "https://", host);
    var withHttp := "http://" + bare;
    var withHttps := "https://" + bare;
    assert HasPrefix(withHttp, "http://") && withHttp[7..] == bare;
    assert !HasPrefix(withHttps, "http://") by {
      assert withHttps[4] == 's';
    }
    assert HasPrefix(withHttps, "https://") && withHttps[8..] == bare;
  }

  // =====================================================================
  // LintJob

  /** A job's rank in the workflow; a job missing from the ranks reads as rank 0. */
  function RankOf(ranks: map<string, nat>, name: string): nat
  {
    if name in ranks then ranks[name] else 0
  }

  /**
   * A FromJob distribute job may quote only a job of an earlier rank; any
   * other source always passes.
   */
  function LintError(name: string, spec: DistributeJobSpec, ranks: map<string, nat>): (r: Option<string>)
    ensures r.None? <==>
      spec.source != SourceFromJob
      || (spec.jobName in ranks && name in ranks && ranks[spec.jobName] < ranks[name])
    ensures r.Some? ==> r.value == "can not quote job " + spec.jobName + " in job " + name
  {
    if spec.source != SourceFromJob then None
    else if spec.jobName !in ranks || ranks[spec.jobName] >= RankOf(ranks, name)
    then Some("can not quote job " + spec.jobName + " in job " + name)
    else None
  }

  // =====================================================================
  // UpdateWithLatestSetting

  /**
   * The saved specification brought up to the latest one: the latest
   * source, the latest quoted job (FromJob) or source registry (any other
   * source), and the latest target registry, timeout, cluster, strategy
   * and tag rule; the saved targets stay, except that a saved FromJob job
   * whose latest source is Runtime loses them.
   */
  function LatestDistributeSpec(saved: DistributeJobSpec, latest: DistributeJobSpec): (r: DistributeJobSpec)
    ensures r.source == latest.source
    ensures r.targets == if saved.source == SourceFromJob && latest.source == SourceRuntime then [] else saved.targets
    ensures latest.source == SourceFromJob ==>
      r.jobName == latest.jobName && r.sourceRegistryID == saved.sourceRegistryID
    ensures latest.source != SourceFromJob ==>
      r.jobName == saved.jobName && r.sourceRegistryID == latest.sourceRegistryID
    ensures r.targetRegistryID == latest.targetRegistryID && r.timeout == latest.timeout
    ensures r.clusterID == latest.clusterID && r.strategyID == latest.strategyID
    ensures r.enableTargetImageTagRule == latest.enableTargetImageTagRule
    ensures r.targetImageTagRule == latest.targetImageTagRule
  {
    var s := if saved.source == SourceFromJob && latest.source == SourceRuntime then saved.(targets := []) else saved;
    var s1 := s.(source := latest.source);
    var s2 := if s1.source == SourceFromJob then s1.(jobName := latest.jobName)
              else s1.(sourceRegistryID := latest.sourceRegistryID);
    s2.(targetRegistryID := latest.targetRegistryID, timeout := latest.timeout, clusterID := latest.clusterID,
        strategyID := latest.strategyID, enableTargetImageTagRule := latest.enableTargetImageTagRule,
        targetImageTagRule := latest.targetImageTagRule)
  }

  /** Updating twice from the same latest specification is updating once. */
  lemma LatestDistributeSpecIdempotent(saved: DistributeJobSpec, latest: DistributeJobSpec)
    ensures LatestDistributeSpec(LatestDistributeSpec(saved, latest), latest) == LatestDistributeSpec(saved, latest)
  {
    var once := LatestDistributeSpec(saved, latest);
    var twice := LatestDistributeSpec(once, latest);
    assert twice.targets == once.targets;
  }

  // =====================================================================
  // getQuoteBuildJobSpec

  /** Job k is the first with the name. */
  predicate FirstWithName(jobs: seq<Job>, k: nat, name: string)
    requires k < |jobs|
  {
    jobs[k].name == name && forall l :: 0 <= l < k ==> jobs[l].name != name
  }

  /** The first job with the name. */
  function FirstNamedJob(jobs: seq<Job>, name: string): (r: Option<Job>)
    ensures r.Some? ==> exists k :: 0 <= k < |jobs| && jobs[k] == r.value && FirstWithName(jobs, k, name)
    ensures r.None? <==> forall k :: 0 <= k < |jobs| ==> jobs[k].name != name
  {
    if |jobs| == 0 then None
    else if jobs[0].name == name then Some(jobs[0])
    else
      var r := FirstNamedJob(jobs[1..], name);
      assert forall k :: 1 <= k < |jobs| ==> jobs[k] == jobs[1..][k - 1];
      if r.Some? then
        var k :| 0 <= k < |jobs[1..]| && jobs[1..][k] == r.value && FirstWithName(jobs[1..], k, name);
        assert jobs[k + 1] == jobs[1..][k] && FirstWithName(jobs, k + 1, name);
        r
      else r
  }

  /** The job is a build job with this specification. */
  predicate IsBuildOf(job: Job, spec: BuildJobSpec)
  {
    job.jobType == JobZadigBuild && spec == AsBuildSpec(job.spec)
  }

  /**
   * The build specification of the quoted job: the first job of the
   * workflow with the name, which must be a build job.
   */
  function QuoteBuildJobSpec(stages: seq<Stage>, jobName: string): (r: Result<BuildJobSpec>)
    ensures r.Ok? ==>
      exists job :: job in AllJobs(stages) && job.name == jobName && IsBuildOf(job, r.value)
    ensures (forall job :: job in AllJobs(stages) ==> job.name != jobName) <==>
      r == Err("reference job: " + jobName + " not found")
    ensures r.Err? && (exists job :: job in AllJobs(stages) && job.name == jobName) ==>
      r == Err("cannot reference job: " + jobName + " that is not a build")
  {
    var jobs := AllJobs(stages);
    match FirstNamedJob(jobs, jobName)
    case None => Err("reference job: " + jobName + " not found")
    case Some(job) =>
      assert job in jobs && job.name == jobName;
      if job.jobType != JobZadigBuild then
        assert ("cannot reference job: " + jobName + " that is not a build")[0] == 'c';
        assert ("reference job: " + jobName + " not found")[0] == 'r';
        Err("cannot reference job: " + jobName + " that is not a build")
      else Ok(AsBuildSpec(job.spec))
  }

  /** The jobs from stage i on: the rest of stage i's jobs, then the later stages'. */
  lemma AllJobsFrom(stages: seq<Stage>, i: nat)
    requires i < |stages|
    ensures AllJobs(stages[i..]) == stages[i].jobs + AllJobs(stages[i + 1..])
  {
    assert stages[i..][0] == stages[i] && stages[i..][1..] == stages[i + 1..];
  }

  /** The first job of one stage with the name, if the stage has one. */
  method FindInStage(jobs: seq<Job>, ghost rest: seq<Job>, jobName: string) returns (found: Option<Job>)
    ensures found.Some? ==> FirstNamedJob(jobs + rest, jobName) == found
    ensures found.None? ==> FirstNamedJob(jobs + rest, jobName) == FirstNamedJob(rest, jobName)
  {
    var j := 0;
    while j < |jobs|
      invariant 0 <= j <= |jobs|
      invariant FirstNamedJob(jobs + rest, jobName) == FirstNamedJob(jobs[j..] + rest, jobName)
    {
      assert (jobs[j..] + rest)[0] == jobs[j] && (jobs[j..] + rest)[1..] == jobs[j + 1..] + rest;
      if jobs[j].name == jobName {
        return Some(jobs[j]);
      }
      j := j + 1;
    }
    assert jobs[j..] + rest == rest;
    return None;
  }

  method GetQuoteBuildJobSpec(stages: seq<Stage>, jobName: string) returns (r: Result<BuildJobSpec>)
    ensures r == QuoteBuildJobSpec(stages, jobName)
  {
    var i := 0;
    var found: Option<Job> := None;
    while i < |stages| && found.None?
      invariant 0 <= i <= |stages|
      invariant found.None? ==> FirstNamedJob(AllJobs(stages), jobName) == FirstNamedJob(AllJobs(stages[i..]), jobName)
      invariant found.Some? ==> FirstNamedJob(AllJobs(stages), jobName) == found
    {
      AllJobsFrom(stages, i);
      found := FindInStage(stages[i].jobs, AllJobs(stages[i + 1..]), jobName);
      i := i + 1;
    }
    if found.None? {
      assert stages[i..] == [];
      return Err("reference job: " + jobName + " not found");
    }
    var job := found.value;
    if job.jobType != JobZadigBuild {
      return Err("cannot reference job: " + jobName + " that is not a build");
    }
    return Ok(AsBuildSpec(job.spec));
  }

  // =====================================================================
  // getOriginReferredJobTargets

  /** The service modules an upstream job offers, and the registry its images live in. */
  datatype Referred = Referred(targets: seq<ServiceTestTarget>, registryID: string)

  const DeployEnvPrefix := "failed to get deploy job "
  const DeployEnvSuffix := " env's registry info"

  /**
   * What a job of each kind offers a distribute job: a build job its
   * builds and its docker registry, a distribute job its targets and its
   * target registry, a deploy job its services' modules and its
   * environment's registry (an error when the environment is unknown);
   * any other kind offers nothing.
   */
  function ReferredOf(job: Job, envRegistries: map<string, string>): (r: Option<Result<Referred>>)
    ensures r.None? <==> job.jobType !in {JobZadigBuild, JobZadigDistributeImage, JobZadigDeploy}
    ensures r.Some? && r.value.Err? <==> job.jobType == JobZadigDeploy && AsDeploySpec(job.spec).env !in envRegistries
    ensures r.Some? && r.value.Err? ==> r.value.msg == DeployEnvPrefix + AsDeploySpec(job.spec).env + DeployEnvSuffix
  {
    match job.jobType
    case JobZadigBuild =>
      var b := AsBuildSpec(job.spec);
      Some(Ok(Referred(BuildTargetsOf(b.serviceAndBuilds), b.dockerRegistryID)))
    case JobZadigDistributeImage =>
      var d := AsDistributeSpec(job.spec);
      Some(Ok(Referred(DistributeTargetsOf(d.targets), d.targetRegistryID)))
    case JobZadigDeploy =>
      var d := AsDeploySpec(job.spec);
      if d.env in envRegistries then Some(Ok(Referred(DeployTargetsOf(d.services), envRegistries[d.env])))
      else Some(Err(DeployEnvPrefix + d.env + DeployEnvSuffix))
    case _ => None
  }

  /** Job k is the first with the name whose kind offers service modules. */
  predicate FirstReferredAt(jobs: seq<Job>, k: nat, refName: string, envRegistries: map<string, string>)
    requires k < |jobs|
  {
    jobs[k].name == refName && ReferredOf(jobs[k], envRegistries).Some?
    && forall l :: 0 <= l < k && jobs[l].name == refName ==> ReferredOf(jobs[l], envRegistries).None?
  }

  /**
   * What the first job with the name offers, jobs of that name whose kind
   * offers nothing being passed over.
   */
  function FirstReferred(jobs: seq<Job>, refName: string, envRegistries: map<string, string>)
    : (r: Option<Result<Referred>>)
    ensures r.None? <==>
      forall k :: 0 <= k < |jobs| && jobs[k].name == refName ==> ReferredOf(jobs[k], envRegistries).None?
    ensures r.Some? ==> exists k :: (0 <= k < |jobs| && FirstReferredAt(jobs, k, refName, envRegistries)
      && ReferredOf(jobs[k], envRegistries) == r)
  {
    if |jobs| == 0 then None
    else if jobs[0].name == refName && ReferredOf(jobs[0], envRegistries).Some? then
      assert FirstReferredAt(jobs, 0, refName, envRegistries);
      ReferredOf(jobs[0], envRegistries)
    else
      var r := FirstReferred(jobs[1..], refName, envRegistries);
      assert forall k :: 1 <= k < |jobs| ==> jobs[k] == jobs[1..][k - 1];
      if r.Some? then
        var k :| 0 <= k < |jobs[1..]| && FirstReferredAt(jobs[1..], k, refName, envRegistries)
          && ReferredOf(jobs[1..][k], envRegistries) == r;
        assert jobs[k + 1] == jobs[1..][k] && FirstReferredAt(jobs, k + 1, refName, envRegistries);
        r
      else r
  }

  /** The upstream service modules with the images the quoted job outputs for them. */
  datatype Quoted = Quoted(targets: seq<DistributeTarget>, registryID: string)

  /** A fresh target for the service module, its source image the quoted job's IMAGE output. */
  function QuotedTarget(t: ServiceTestTarget, imageRef: string): DistributeTarget
  {
    DistributeTarget(t.serviceName, t.serviceModule, "", "", JobOutputKey(TaskKey(imageRef, t.serviceName, t.serviceModule), ImageKey),
                     "", "", false)
  }

  function QuotedTargets(ts: seq<ServiceTestTarget>, imageRef: string): (r: seq<DistributeTarget>)
    ensures |r| == |ts|
    ensures forall i :: 0 <= i < |ts| ==> r[i] == QuotedTarget(ts[i], imageRef)
  {
    seq(|ts|, i requires 0 <= i < |ts| => QuotedTarget(ts[i], imageRef))
  }

  /**
   * The quoted targets are the offered service modules, in order, each
   * with the quoted job's IMAGE output for it as its source image.
   */
  predicate QuotedFrom(q: Quoted, ref: Referred, imageRef: string)
  {
    |q.targets| == |ref.targets| && q.registryID == ref.registryID
    && forall i :: 0 <= i < |ref.targets| ==>
         q.targets[i].serviceName == ref.targets[i].serviceName
         && q.targets[i].serviceModule == ref.targets[i].serviceModule
         && q.targets[i].sourceImage
            == JobOutputKey(TaskKey(imageRef, ref.targets[i].serviceName, ref.targets[i].serviceModule), ImageKey)
  }

  const ReferredMissingPrefix := "referred service job "
  const ReferredMissingSuffix := " not found"

  /**
   * getOriginReferredJobTargets: the service modules of the first job
   * named `serviceRef` that offers them, in order, each reading its image
   * from the IMAGE output the job `imageRef` publishes for it, and the
   * registry those images are in. The lookup fails when no job of the
   * name offers service modules, or when the first that does is a deploy
   * job of an unknown environment.
   */
  function ReferredTargets(stages: seq<Stage>, serviceRef: string, imageRef: string, envRegistries: map<string, string>)
    : Result<Quoted>
  {
    var found := FirstReferred(AllJobs(stages), serviceRef, envRegistries);
    if found.None? then Err(ReferredMissingPrefix + serviceRef + ReferredMissingSuffix)
    else if found.value.Err? then Err(found.value.msg)
    else Ok(Quoted(QuotedTargets(found.value.value.targets, imageRef), found.value.value.registryID))
  }

  /** Job k is the first of the name offering service modules, and `q` quotes what it offers. */
  predicate QuotesJob(q: Quoted, jobs: seq<Job>, k: nat, serviceRef: string, imageRef: string,
                      envRegistries: map<string, string>)
  {
    k < |jobs| && FirstReferredAt(jobs, k, serviceRef, envRegistries)
    && ReferredOf(jobs[k], envRegistries).value.Ok?
    && QuotedFrom(q, ReferredOf(jobs[k], envRegistries).value.value, imageRef)
  }

  /**
   * A successful lookup returns what the first job of the name that
   * offers service modules offers, each with its source image.
   */
  lemma ReferredTargetsFound(stages: seq<Stage>, serviceRef: string, imageRef: string, envRegistries: map<string, string>)
    requires ReferredTargets(stages, serviceRef, imageRef, envRegistries).Ok?
    ensures exists k: nat :: QuotesJob(ReferredTargets(stages, serviceRef, imageRef, envRegistries).value,
                                       AllJobs(stages), k, serviceRef, imageRef, envRegistries)
  {
    var jobs := AllJobs(stages);
    var found := FirstReferred(jobs, serviceRef, envRegistries);
    var k :| 0 <= k < |jobs| && FirstReferredAt(jobs, k, serviceRef, envRegistries)
      && ReferredOf(jobs[k], envRegistries) == found;
    var q := ReferredTargets(stages, serviceRef, imageRef, envRegistries).value;
    assert q == Quoted(QuotedTargets(found.value.value.targets, imageRef), found.value.value.registryID);
    assert QuotesJob(q, jobs, k, serviceRef, imageRef, envRegistries);
  }

  /**
   * The lookup reports the quoted job missing exactly when no job of the
   * name offers service modules; otherwise it fails only for a deploy
   * job of an unknown environment.
   */
  lemma ReferredTargetsMissing(stages: seq<Stage>, serviceRef: string, imageRef: string, envRegistries: map<string, string>)
    ensures var jobs := AllJobs(stages);
      (forall k :: 0 <= k < |jobs| && jobs[k].name == serviceRef ==> ReferredOf(jobs[k], envRegistries).None?)
      <==> ReferredTargets(stages, serviceRef, imageRef, envRegistries) == Err(ReferredMissingPrefix + serviceRef + ReferredMissingSuffix)
  {
    var jobs := AllJobs(stages);
    var r := ReferredTargets(stages, serviceRef, imageRef, envRegistries);
    var found := FirstReferred(jobs, serviceRef, envRegistries);
    if found.Some? {
      var k :| 0 <= k < |jobs| && FirstReferredAt(jobs, k, serviceRef, envRegistries)
        && ReferredOf(jobs[k], envRegistries) == found;
      assert jobs[k].name == serviceRef && ReferredOf(jobs[k], envRegistries).Some?;
      if found.value.Err? {
        assert r.msg == DeployEnvPrefix + AsDeploySpec(jobs[k].spec).env + DeployEnvSuffix;
        assert r.msg[0] == 'f';
        assert (ReferredMissingPrefix + serviceRef + ReferredMissingSuffix)[0] == 'r';
      }
    }
  }

  /**
   * Within one quoted job, service modules whose service names lack '.'
   * read different source images.
   */
  lemma QuotedSourceImagesDistinct(t1: ServiceTestTarget, t2: ServiceTestTarget, imageRef: string)
    requires '.' !in t1.serviceName && '.' !in t2.serviceName
    requires t1 != t2
    ensures QuotedTarget(t1, imageRef).sourceImage != QuotedTarget(t2, imageRef).sourceImage
  {
    var k1 := TaskKey(imageRef, t1.serviceName, t1.serviceModule);
    var k2 := TaskKey(imageRef, t2.serviceName, t2.serviceModule);
    JobOutputKeyInjective(k1, k2, ImageKey);
    if k1 == k2 {
      TaskKeyInjective(imageRef, t1.serviceName, t1.serviceModule, t2.serviceName, t2.serviceModule);
    }
  }

  /** What one job offers, its service modules collected by loops as its kind says. */
  method JobReferred(job: Job, envRegistries: map<string, string>) returns (r: Option<Result<Referred>>)
    ensures r == ReferredOf(job, envRegistries)
  {
    if job.jobType == JobZadigBuild {
      var b := AsBuildSpec(job.spec);
      var ts := CollectBuildTargets(b.serviceAndBuilds);
      return Some(Ok(Referred(ts, b.dockerRegistryID)));
    }
    if job.jobType == JobZadigDistributeImage {
      var d := AsDistributeSpec(job.spec);
      var ts := CollectDistributeTargets(d.targets);
      return Some(Ok(Referred(ts, d.targetRegistryID)));
    }
    if job.jobType == JobZadigDeploy {
      var d := AsDeploySpec(job.spec);
      var ts := CollectDeployTargets(d.services);
      if d.env !in envRegistries {
        return Some(Err(DeployEnvPrefix + d.env + DeployEnvSuffix));
      }
      return Some(Ok(Referred(ts, envRegistries[d.env])));
    }
    return None;
  }

  /** The first job of one stage that offers service modules under the name. */
  method ReferredInStage(jobs: seq<Job>, ghost rest: seq<Job>, refName: string, envRegistries: map<string, string>)
    returns (found: Option<Result<Referred>>)
    ensures found.Some? ==> FirstReferred(jobs + rest, refName, envRegistries) == found
    ensures found.None? ==> FirstReferred(jobs + rest, refName, envRegistries) == FirstReferred(rest, refName, envRegistries)
  {
    var j := 0;
    while j < |jobs|
      invariant 0 <= j <= |jobs|
      invariant FirstReferred(jobs + rest, refName, envRegistries) == FirstReferred(jobs[j..] + rest, refName, envRegistries)
    {
      assert (jobs[j..] + rest)[0] == jobs[j] && (jobs[j..] + rest)[1..] == jobs[j + 1..] + rest;
      if jobs[j].name == refName {
        var offered := JobReferred(jobs[j], envRegistries);
        if offered.Some? {
          return offered;
        }
      }
      j := j + 1;
    }
    assert jobs[j..] + rest == rest;
    return None;
  }

  /** Give each service module the quoted job's IMAGE output as its source image. */
  method AttachSourceImages(ts: seq<ServiceTestTarget>, imageRef: string) returns (r: seq<DistributeTarget>)
    ensures r == QuotedTargets(ts, imageRef)
  {
    r := [];
    var i := 0;
    while i < |ts|
      invariant 0 <= i <= |ts|
      invariant |r| == i && forall k :: 0 <= k < i ==> r[k] == QuotedTarget(ts[k], imageRef)
    {
      var key := JobOutputKey(TaskKey(imageRef, ts[i].serviceName, ts[i].serviceModule), ImageKey);
      r := r + [DistributeTarget(ts[i].serviceName, ts[i].serviceModule, "", "", key, "", "", false)];
      i := i + 1;
    }
  }

  /** Search the stages in order, stopping at the first job that offers service modules. */
  method GetOriginReferredJobTargets(stages: seq<Stage>, serviceRef: string, imageRef: string,
                                     envRegistries: map<string, string>)
    returns (r: Result<Quoted>)
    ensures r == ReferredTargets(stages, serviceRef, imageRef, envRegistries)
  {
    var i := 0;
    var found: Option<Result<Referred>> := None;
    while i < |stages| && found.None?
      invariant 0 <= i <= |stages|
      invariant found.None? ==>
        FirstReferred(AllJobs(stages), serviceRef, envRegistries) == FirstReferred(AllJobs(stages[i..]), serviceRef, envRegistries)
      invariant found.Some? ==> FirstReferred(AllJobs(stages), serviceRef, envRegistries) == found
    {
      AllJobsFrom(stages, i);
      found := ReferredInStage(stages[i].jobs, AllJobs(stages[i + 1..]), serviceRef, envRegistries);
      i := i + 1;
    }
    if found.None? {
      assert stages[i..] == [];
      return Err(ReferredMissingPrefix + serviceRef + ReferredMissingSuffix);
    }
    if found.value.Err? {
      return Err(found.value.msg);
    }
    var ref := found.value.value;
    var targets := AttachSourceImages(ref.targets, imageRef);
    return Ok(Quoted(targets, ref.registryID));
  }

  // =====================================================================
  // ToJobs: target tags

  /** The image-tag output the quoted job publishes for a service module. */
  function QuotedImageTag(jobName: string, serviceName: string, serviceModule: string): string
  {
    JobOutputKey(TaskKey(jobName, serviceName, serviceModule), ImageTagKey)
  }

  /**
   * The tag rule of a FromJob job as the compiler applies it: both
   * substitutions start from the raw rule and the second overwrites the
   * first, so only the preJob placeholder is filled in.
   */
  function RuleTagAsWritten(rule: string, ref: string): string
  {
    var afterPreBuild := ReplaceAll(rule, PreBuildImageTagVariable, ref);
    ReplaceAll(rule, PreJobImageTagVariable, ref)
  }

  /** The tag rule with both placeholders filled in, one after the other. */
  function RuleTag(rule: string, ref: string): string
  {
    ReplaceAll(ReplaceAll(rule, PreBuildImageTagVariable, ref), PreJobImageTagVariable, ref)
  }

  /**
   * As written, a rule that is just the preBuild placeholder survives
   * unchanged: the target tag is the placeholder itself, whatever the
   * quoted job's tag is.
   */
  lemma RuleTagAsWrittenKeepsPreBuild(ref: string)
    ensures RuleTagAsWritten(PreBuildImageTagVariable, ref) == PreBuildImageTagVariable
  {
    MissingCharNoOccurrence(PreBuildImageTagVariable, PreJobImageTagVariable, 'J');
    ReplaceAllNoOccurrence(PreBuildImageTagVariable, PreJobImageTagVariable, ref);
  }

  /** A concrete case: the quoted build's tag never reaches the target tag. */
  lemma RuleTagAsWrittenCounterexample()
    ensures RuleTagAsWritten(PreBuildImageTagVariable, QuotedImageTag("build", "svc", "mod"))
         != QuotedImageTag("build", "svc", "mod")
  {
    RuleTagAsWrittenKeepsPreBuild(QuotedImageTag("build", "svc", "mod"));
    assert |PreBuildImageTagVariable| == 26;
    assert |QuotedImageTag("build", "svc", "mod")| == 38;
  }

  /**
   * Corrected, the preBuild placeholder resolves to the quoted job's tag
   * (for a tag in which the preJob placeholder does not occur).
   */
  lemma RuleTagResolvesPreBuild(ref: string)
    requires !Occurs(ref, PreJobImageTagVariable)
    ensures RuleTag(PreBuildImageTagVariable, ref) == ref
  {
    ReplaceAllWhole(PreBuildImageTagVariable, ref);
    ReplaceAllNoOccurrence(ref, PreJobImageTagVariable, ref);
  }

  /** The preJob placeholder resolves to the quoted job's tag, as it did before. */
  lemma RuleTagResolvesPreJob(ref: string)
    ensures RuleTag(PreJobImageTagVariable, ref) == ref
  {
    MissingCharNoOccurrence(PreJobImageTagVariable, PreBuildImageTagVariable, 'B');
    ReplaceAllNoOccurrence(PreJobImageTagVariable, PreBuildImageTagVariable, ref);
    ReplaceAllWhole(PreJobImageTagVariable, ref);
  }

  /**
   * The corrected rule and the rule as written agree on every rule in
   * which the preBuild placeholder does not occur: the two differ only on
   * rules that use it.
   */
  lemma RuleTagAgreesWithoutPreBuild(rule: string, ref: string)
    requires !Occurs(rule, PreBuildImageTagVariable)
    ensures RuleTag(rule, ref) == RuleTagAsWritten(rule, ref)
  {
    ReplaceAllNoOccurrence(rule, PreBuildImageTagVariable, ref);
  }

  /** The quoted job's tag output never holds the preJob placeholder when its names lack 'J'. */
  lemma QuotedImageTagNoPlaceholder(jobName: string, serviceName: string, serviceModule: string)
    requires 'J' !in jobName && 'J' !in serviceName && 'J' !in serviceModule
    ensures !Occurs(QuotedImageTag(jobName, serviceName, serviceModule), PreJobImageTagVariable)
  {
    var t := QuotedImageTag(jobName, serviceName, serviceModule);
    assert t == "{{.job." + jobName + "." + serviceName + "." + serviceModule + ".output." + "imageTag" + "}}";
    assert 'J' !in t;
    MissingCharNoOccurrence(t, PreJobImageTagVariable, 'J');
  }

  /** The key a target is filed under: its service and module. */
  function TargetKey(t: DistributeTarget): string
  {
    ServiceModuleKey(t.serviceName, t.serviceModule)
  }

  /** The saved targets by service module; of two with one key the later wins. */
  function TagMap(targets: seq<DistributeTarget>): (m: map<string, DistributeTarget>)
    ensures forall t :: t in targets ==> TargetKey(t) in m
    ensures forall key :: key in m ==> TargetKey(m[key]) == key && m[key] in targets
  {
    if |targets| == 0 then map[]
    else
      var last := targets[|targets| - 1];
      var m := TagMap(targets[..|targets| - 1]);
      assert forall t :: t in targets ==> t in targets[..|targets| - 1] || t == last;
      m[TargetKey(last) := last]
  }

  /** No later target has target i's service module. */
  predicate LastWithKey(targets: seq<DistributeTarget>, i: nat)
    requires i < |targets|
  {
    forall j :: i < j < |targets| ==> TargetKey(targets[j]) != TargetKey(targets[i])
  }

  /** The map holds, for each service module, the last saved target with it. */
  lemma {:induction false} TagMapLastWins(targets: seq<DistributeTarget>, i: nat)
    requires i < |targets| && LastWithKey(targets, i)
    ensures TagMap(targets)[TargetKey(targets[i])] == targets[i]
    decreases |targets|
  {
    var init := targets[..|targets| - 1];
    if i < |targets| - 1 {
      assert TargetKey(targets[|targets| - 1]) != TargetKey(targets[i]);
      assert init[i] == targets[i];
      assert LastWithKey(init, i) by {
        forall j | i < j < |init| ensures TargetKey(init[j]) != TargetKey(init[i]) {
          assert init[j] == targets[j];
        }
      }
      TagMapLastWins(init, i);
    }
  }

  /**
   * A quoted target's tag: with a tag rule, the rule filled with the quoted
   * job's tag output and always an update; without one, the tag and update
   * flag of the saved target for the same service module, or none.
   */
  function TaggedTarget(t: DistributeTarget, spec: DistributeJobSpec, saved: map<string, DistributeTarget>)
    : DistributeTarget
  {
    if spec.enableTargetImageTagRule then
      t.(targetTag := RuleTag(spec.targetImageTagRule, QuotedImageTag(spec.jobName, t.serviceName, t.serviceModule)),
         updateTag := true)
    else
      var key := TargetKey(t);
      if key in saved then t.(targetTag := saved[key].targetTag, updateTag := saved[key].updateTag)
      else t.(targetTag := "", updateTag := false)
  }

  function TaggedTargets(ts: seq<DistributeTarget>, spec: DistributeJobSpec, saved: map<string, DistributeTarget>)
    : (r: seq<DistributeTarget>)
    ensures |r| == |ts| && forall i :: 0 <= i < |ts| ==> r[i] == TaggedTarget(ts[i], spec, saved)
  {
    seq(|ts|, i requires 0 <= i < |ts| => TaggedTarget(ts[i], spec, saved))
  }

  /**
   * A runtime target: its source image is the image (named by ImageName,
   * or by the module when that is empty) with the source tag in the source
   * registry; with a tag rule its target tag is the rule with the
   * workflow's input tag filled in by the source tag; it always updates.
   */
  function RuntimeTarget(t: DistributeTarget, spec: DistributeJobSpec, sourceReg: Registry): DistributeTarget
  {
    var image := if t.imageName == "" then t.serviceModule else t.imageName;
    t.(sourceImage := DistributeImage(image, t.sourceTag, sourceReg),
       targetTag := if spec.enableTargetImageTagRule
                    then ReplaceAll(spec.targetImageTagRule, WorkflowInputImageTagVariable, t.sourceTag)
                    else t.targetTag,
       updateTag := true)
  }

  function RuntimeTargets(ts: seq<DistributeTarget>, spec: DistributeJobSpec, sourceReg: Registry)
    : (r: seq<DistributeTarget>)
    ensures |r| == |ts| && forall i :: 0 <= i < |ts| ==> r[i] == RuntimeTarget(ts[i], spec, sourceReg)
  {
    seq(|ts|, i requires 0 <= i < |ts| => RuntimeTarget(ts[i], spec, sourceReg))
  }

  /** The image this job publishes for a target, under which later jobs find it. */
  function TargetImageKey(jobName: string, t: DistributeTarget): string
  {
    JobOutputKey(TaskKey(jobName, t.serviceName, t.serviceModule), ImageKey)
  }

  /** What the distribute step is told about a target. */
  function StepTarget(t: DistributeTarget): DistributeTaskTarget
  {
    DistributeTaskTarget(t.sourceImage, t.serviceName, t.serviceModule, t.targetTag, t.updateTag, "")
  }

  function PublishedTargets(jobName: string, ts: seq<DistributeTarget>): (r: seq<DistributeTarget>)
    ensures |r| == |ts|
    ensures forall i :: 0 <= i < |ts| ==> r[i] == ts[i].(targetImage := TargetImageKey(jobName, ts[i]))
  {
    seq(|ts|, i requires 0 <= i < |ts| => ts[i].(targetImage := TargetImageKey(jobName, ts[i])))
  }

  function StepTargets(ts: seq<DistributeTarget>): (r: seq<DistributeTaskTarget>)
    ensures |r| == |ts| && forall i :: 0 <= i < |ts| ==> r[i] == StepTarget(ts[i])
  {
    seq(|ts|, i requires 0 <= i < |ts| => StepTarget(ts[i]))
  }

  // =====================================================================
  // ToJobs

  /**
   * What compiling a distribute job looks up: the registries by id, each
   * environment's registry id, and the name of the job a quoted job takes
   * its services from (its code lies outside this model).
   */
  datatype DistributeEnvironment = DistributeEnvironment(
    registries: map<string, Registry>,
    envRegistries: map<string, string>,
    originJobName: string -> string)

  /** What ToJobs returns, and the specification the job keeps afterwards. */
  datatype DistributeOutcome = DistributeOutcome(tasks: seq<JobTask>, err: Option<string>, spec: DistributeJobSpec)

  const SourceRegistryPrefix := "source image registry: "
  const TargetRegistryPrefix := "target image registry: "
  const RegistryMissingSuffix := " not found"
  const ReferredInfoPrefix := "failed to get referred job info for distribute job: "
  const ReferredInfoMiddle := ", error: "

  /** The targets once their sources and tags are settled, before they are published. */
  function SettledSpec(name: string, stages: seq<Stage>, spec: DistributeJobSpec, env: DistributeEnvironment,
                       sourceReg: Registry): Result<DistributeJobSpec>
  {
    if spec.source == SourceFromJob then
      var quoted := ReferredTargets(stages, env.originJobName(spec.jobName), spec.jobName, env.envRegistries);
      if quoted.Err? then Err(ReferredInfoPrefix + name + ReferredInfoMiddle + quoted.msg)
      else Ok(spec.(sourceRegistryID := quoted.value.registryID,
                    targets := TaggedTargets(quoted.value.targets, spec, TagMap(spec.targets))))
    else if spec.source == SourceRuntime then
      Ok(spec.(targets := RuntimeTargets(spec.targets, spec, sourceReg)))
    else Ok(spec)
  }

  /** The one task of a distribute job. */
  function DistributeTask(name: string, spec: DistributeJobSpec, sourceReg: Registry, targetReg: Registry): JobTask
  {
    JobTask(name, name, map[JobNameKey := name], JobZadigDistributeImage, TaskTimeout(spec.timeout), [],
            [StepTask("distribute", "", StepDistributeImage, DistributeStepSpec(sourceReg, targetReg, StepTargets(spec.targets)))])
  }

  /**
   * ToJobs: both registries must exist; the targets are settled by the
   * source; each then publishes its image under this job's outputs, and
   * the job compiles to a single task with a single distribute step. The
   * step's source registry is the one the saved specification names, even
   * when a quoted job supplies another. The job keeps the settled,
   * published targets only when compiling succeeds.
   */
  function DistributeToJobs(name: string, stages: seq<Stage>, spec: DistributeJobSpec, env: DistributeEnvironment)
    : DistributeOutcome
  {
    if spec.sourceRegistryID !in env.registries then
      DistributeOutcome([], Some(SourceRegistryPrefix + spec.sourceRegistryID + RegistryMissingSuffix), spec)
    else if spec.targetRegistryID !in env.registries then
      DistributeOutcome([], Some(TargetRegistryPrefix + spec.targetRegistryID + RegistryMissingSuffix), spec)
    else
      var sourceReg := env.registries[spec.sourceRegistryID];
      var targetReg := env.registries[spec.targetRegistryID];
      var settled := SettledSpec(name, stages, spec, env, sourceReg);
      if settled.Err? then DistributeOutcome([], Some(settled.msg), spec)
      else
        var s := settled.value;
        DistributeOutcome([DistributeTask(name, s, sourceReg, targetReg)], None,
                          s.(targets := PublishedTargets(name, s.targets)))
  }

  /** GetOutPuts: the IMAGE output key of each target, in order. */
  function DistributeOutputs(name: string, spec: DistributeJobSpec): (r: seq<string>)
    ensures |r| == |spec.targets|
    ensures forall i :: 0 <= i < |r| ==> r[i] == TargetImageKey(name, spec.targets[i])
  {
    seq(|spec.targets|, i requires 0 <= i < |spec.targets| => TargetImageKey(name, spec.targets[i]))
  }

  /** A job whose registries are both missing or unknown compiles to nothing and keeps its specification. */
  lemma DistributeToJobsRegistryMissing(name: string, stages: seq<Stage>, spec: DistributeJobSpec, env: DistributeEnvironment)
    requires spec.sourceRegistryID !in env.registries || spec.targetRegistryID !in env.registries
    ensures var o := DistributeToJobs(name, stages, spec, env);
      o.tasks == [] && o.err.Some? && o.spec == spec
  {
  }

  /**
   * A job that compiles yields exactly one task, named and keyed by the
   * job, with a nonzero timeout and one distribute step between the two
   * registries; the step distributes each of the job's new targets, in
   * order, and each target publishes its image under this job's IMAGE
   * output for its service module.
   */
  lemma DistributeToJobsTask(name: string, stages: seq<Stage>, spec: DistributeJobSpec, env: DistributeEnvironment)
    requires DistributeToJobs(name, stages, spec, env).err.None?
    ensures var o := DistributeToJobs(name, stages, spec, env);
      |o.tasks| == 1 && o.tasks[0].name == name && o.tasks[0].key == name
      && o.tasks[0].jobInfo == map[JobNameKey := name] && o.tasks[0].jobType == JobZadigDistributeImage
      && o.tasks[0].timeout != 0 && |o.tasks[0].steps| == 1
      && o.tasks[0].steps[0].stepType == StepDistributeImage
      && o.tasks[0].steps[0].spec == DistributeStepSpec(env.registries[spec.sourceRegistryID],
                                                        env.registries[spec.targetRegistryID],
                                                        o.tasks[0].steps[0].spec.targets)
      && |o.tasks[0].steps[0].spec.targets| == |o.spec.targets|
      && forall i :: 0 <= i < |o.spec.targets| ==>
           var t := o.spec.targets[i];
           var st := o.tasks[0].steps[0].spec.targets[i];
           st.sourceImage == t.sourceImage && st.serviceName == t.serviceName
           && st.serviceModule == t.serviceModule && st.targetTag == t.targetTag && st.updateTag == t.updateTag
           && t.targetImage == JobOutputKey(TaskKey(name, t.serviceName, t.serviceModule), ImageKey)
  {
    var o := DistributeToJobs(name, stages, spec, env);
    var sourceReg := env.registries[spec.sourceRegistryID];
    var s := SettledSpec(name, stages, spec, env, sourceReg).value;
    assert o.spec.targets == PublishedTargets(name, s.targets);
    assert o.tasks[0].steps[0].spec.targets == StepTargets(s.targets);
  }

  /**
   * A quoted target's tag as the job's tag rule or its saved targets give
   * it: with a rule, the rule filled with the quoted job's tag output,
   * always updating; without one, the tag and update flag of the last
   * saved target for its service module, or none.
   */
  predicate TagFromSaved(t: DistributeTarget, spec: DistributeJobSpec)
  {
    (spec.enableTargetImageTagRule ==>
       t.updateTag && t.targetTag == RuleTag(spec.targetImageTagRule,
                                             QuotedImageTag(spec.jobName, t.serviceName, t.serviceModule)))
    && (!spec.enableTargetImageTagRule ==>
          (forall j :: (0 <= j < |spec.targets| && TargetKey(spec.targets[j]) == TargetKey(t)
                        && LastWithKey(spec.targets, j)) ==>
             t.targetTag == spec.targets[j].targetTag && t.updateTag == spec.targets[j].updateTag)
          && ((forall j :: 0 <= j < |spec.targets| ==> TargetKey(spec.targets[j]) != TargetKey(t)) ==>
             t.targetTag == "" && !t.updateTag))
  }

  /** Each quoted target is tagged as the rule or the saved targets say. */
  lemma TaggedTargetFromSaved(t: DistributeTarget, spec: DistributeJobSpec)
    ensures TagFromSaved(TaggedTarget(t, spec, TagMap(spec.targets)), spec)
  {
    var saved := TagMap(spec.targets);
    var r := TaggedTarget(t, spec, saved);
    assert TargetKey(r) == TargetKey(t);
    if !spec.enableTargetImageTagRule {
      forall j | 0 <= j < |spec.targets| && TargetKey(spec.targets[j]) == TargetKey(t) && LastWithKey(spec.targets, j)
        ensures saved[TargetKey(t)] == spec.targets[j]
      {
        TagMapLastWins(spec.targets, j);
      }
      if TargetKey(t) in saved {
        var j :| 0 <= j < |spec.targets| && spec.targets[j] == saved[TargetKey(t)];
        assert TargetKey(spec.targets[j]) == TargetKey(t);
      }
    }
  }

  /**
   * A FromJob job that compiles distributes exactly the quoted service
   * modules, in order, from the quoted job's images and its registry,
   * each tagged as the job's tag rule or its saved targets say.
   */
  lemma DistributeToJobsFromJob(name: string, stages: seq<Stage>, spec: DistributeJobSpec, env: DistributeEnvironment)
    requires spec.source == SourceFromJob
    requires DistributeToJobs(name, stages, spec, env).err.None?
    ensures var o := DistributeToJobs(name, stages, spec, env);
      var q := ReferredTargets(stages, env.originJobName(spec.jobName), spec.jobName, env.envRegistries);
      q.Ok? && o.spec.sourceRegistryID == q.value.registryID && |o.spec.targets| == |q.value.targets|
      && forall i :: 0 <= i < |o.spec.targets| ==>
           o.spec.targets[i].serviceName == q.value.targets[i].serviceName
           && o.spec.targets[i].serviceModule == q.value.targets[i].serviceModule
           && o.spec.targets[i].sourceImage == q.value.targets[i].sourceImage
           && TagFromSaved(o.spec.targets[i], spec)
  {
    var o := DistributeToJobs(name, stages, spec, env);
    var q := ReferredTargets(stages, env.originJobName(spec.jobName), spec.jobName, env.envRegistries);
    var tagged := TaggedTargets(q.value.targets, spec, TagMap(spec.targets));
    assert o.spec.targets == PublishedTargets(name, tagged);
    forall i | 0 <= i < |o.spec.targets|
      ensures TagFromSaved(o.spec.targets[i], spec)
    {
      TaggedTargetFromSaved(q.value.targets[i], spec);
    }
  }

  /**
   * A Runtime job that compiles distributes its saved targets, in order,
   * each from its image in the source registry, with the rule's tag when
   * there is a rule, and always updating.
   */
  lemma DistributeToJobsRuntime(name: string, stages: seq<Stage>, spec: DistributeJobSpec, env: DistributeEnvironment)
    requires spec.source == SourceRuntime
    requires DistributeToJobs(name, stages, spec, env).err.None?
    ensures var o := DistributeToJobs(name, stages, spec, env);
      var sourceReg := env.registries[spec.sourceRegistryID];
      o.spec.sourceRegistryID == spec.sourceRegistryID && |o.spec.targets| == |spec.targets|
      && forall i :: 0 <= i < |spec.targets| ==>
           var t := o.spec.targets[i];
           var saved := spec.targets[i];
           t.serviceName == saved.serviceName && t.serviceModule == saved.serviceModule
           && t.imageName == saved.imageName && t.sourceTag == saved.sourceTag && t.updateTag
           && t.sourceImage == DistributeImage(if saved.imageName == "" then saved.serviceModule else saved.imageName,
                                               saved.sourceTag, sourceReg)
           && t.targetTag == (if spec.enableTargetImageTagRule
                              then ReplaceAll(spec.targetImageTagRule, WorkflowInputImageTagVariable, saved.sourceTag)
                              else saved.targetTag)
  {
    var o := DistributeToJobs(name, stages, spec, env);
    var sourceReg := env.registries[spec.sourceRegistryID];
    assert o.spec.targets == PublishedTargets(name, RuntimeTargets(spec.targets, spec, sourceReg));
  }

  /**
   * After compiling, the outputs the job declares are exactly the images
   * its targets publish.
   */
  lemma DistributeOutputsPublished(name: string, stages: seq<Stage>, spec: DistributeJobSpec, env: DistributeEnvironment)
    requires DistributeToJobs(name, stages, spec, env).err.None?
    ensures var o := DistributeToJobs(name, stages, spec, env);
      var outs := DistributeOutputs(name, o.spec);
      |outs| == |o.spec.targets| && forall i :: 0 <= i < |outs| ==> outs[i] == o.spec.targets[i].targetImage
  {
    var o := DistributeToJobs(name, stages, spec, env);
    var sourceReg := env.registries[spec.sourceRegistryID];
    var s := SettledSpec(name, stages, spec, env, sourceReg).value;
    assert o.spec.targets == PublishedTargets(name, s.targets);
  }

  // =====================================================================
  // The loops ToJobs and GetOutPuts run

  /** File the saved targets by service module, later ones replacing earlier ones. */
  method BuildTagMap(targets: seq<DistributeTarget>) returns (m: map<string, DistributeTarget>)
    ensures m == TagMap(targets)
  {
    m := map[];
    var i := 0;
    while i < |targets|
      invariant 0 <= i <= |targets|
      invariant m == TagMap(targets[..i])
    {
      TagMapSnoc(targets, i);
      m := m[TargetKey(targets[i]) := targets[i]];
      i := i + 1;
    }
    assert targets[..i] == targets;
  }

  /** Filing one more target overrides its key. */
  lemma TagMapSnoc(targets: seq<DistributeTarget>, i: nat)
    requires i < |targets|
    ensures TagMap(targets[..i + 1]) == TagMap(targets[..i])[TargetKey(targets[i]) := targets[i]]
  {
    assert targets[..i + 1][..i] == targets[..i];
  }

  /** Tag one quoted target by the rule or the saved targets. */
  method TagQuotedTarget(t: DistributeTarget, spec: DistributeJobSpec, saved: map<string, DistributeTarget>)
    returns (r: DistributeTarget)
    ensures r == TaggedTarget(t, spec, saved)
  {
    if spec.enableTargetImageTagRule {
      var ref := QuotedImageTag(spec.jobName, t.serviceName, t.serviceModule);
      r := t.(targetTag := RuleTag(spec.targetImageTagRule, ref), updateTag := true);
    } else {
      var key := TargetKey(t);
      if key in saved {
        r := t.(targetTag := saved[key].targetTag, updateTag := saved[key].updateTag);
      } else {
        r := t.(targetTag := "", updateTag := false);
      }
    }
  }

  /** Tag each quoted target by the rule or the saved targets. */
  method TagQuotedTargets(ts: seq<DistributeTarget>, spec: DistributeJobSpec, saved: map<string, DistributeTarget>)
    returns (r: seq<DistributeTarget>)
    ensures r == TaggedTargets(ts, spec, saved)
  {
    r := [];
    var i := 0;
    while i < |ts|
      invariant 0 <= i <= |ts|
      invariant |r| == i && forall k :: 0 <= k < i ==> r[k] == TaggedTarget(ts[k], spec, saved)
    {
      var t := TagQuotedTarget(ts[i], spec, saved);
      r := r + [t];
      i := i + 1;
    }
  }

  /** Settle one runtime target's source image and tag, step by step. */
  method SettleRuntimeTarget(t: DistributeTarget, spec: DistributeJobSpec, sourceReg: Registry)
    returns (r: DistributeTarget)
    ensures r == RuntimeTarget(t, spec, sourceReg)
  {
    r := t;
    if r.imageName == "" {
      r := r.(sourceImage := DistributeImage(r.serviceModule, r.sourceTag, sourceReg));
    } else {
      r := r.(sourceImage := DistributeImage(r.imageName, r.sourceTag, sourceReg));
    }
    if spec.enableTargetImageTagRule {
      r := r.(targetTag := ReplaceAll(spec.targetImageTagRule, WorkflowInputImageTagVariable, r.sourceTag));
    }
    r := r.(updateTag := true);
  }

  /** Settle each runtime target's source image and tag. */
  method SetRuntimeTargets(ts: seq<DistributeTarget>, spec: DistributeJobSpec, sourceReg: Registry)
    returns (r: seq<DistributeTarget>)
    ensures r == RuntimeTargets(ts, spec, sourceReg)
  {
    r := [];
    var i := 0;
    while i < |ts|
      invariant 0 <= i <= |ts|
      invariant r == RuntimeTargets(ts[..i], spec, sourceReg)
    {
      var t := SettleRuntimeTarget(ts[i], spec, sourceReg);
      assert ts[..i + 1] == ts[..i] + [ts[i]];
      r := r + [t];
      i := i + 1;
    }
    assert ts[..i] == ts;
  }

  /** Publish each target's image under this job's outputs and tell the step about it. */
  method PublishTargets(jobName: string, ts: seq<DistributeTarget>)
    returns (published: seq<DistributeTarget>, stepTargets: seq<DistributeTaskTarget>)
    ensures published == PublishedTargets(jobName, ts) && stepTargets == StepTargets(ts)
  {
    published := [];
    stepTargets := [];
    var i := 0;
    while i < |ts|
      invariant 0 <= i <= |ts|
      invariant |published| == i && forall k :: 0 <= k < i ==> published[k] == PublishedTargets(jobName, ts)[k]
      invariant |stepTargets| == i && forall k :: 0 <= k < i ==> stepTargets[k] == StepTarget(ts[k])
    {
      var t := ts[i];
      var targetKey := TaskKey(jobName, t.serviceName, t.serviceModule);
      published := published + [t.(targetImage := JobOutputKey(targetKey, ImageKey))];
      stepTargets := stepTargets + [DistributeTaskTarget(t.sourceImage, t.serviceName, t.serviceModule,
                                                         t.targetTag, t.updateTag, "")];
      i := i + 1;
    }
  }

  // =====================================================================
  // The job

  class ImageDistributeJob {
    var name: string
    var jobType: JobType
    var workflowName: string
    var workflowStages: seq<Stage>
    var spec: DistributeJobSpec

    constructor(name: string, jobType: JobType, workflowName: string, workflowStages: seq<Stage>,
                spec: DistributeJobSpec)
      ensures this.name == name && this.jobType == jobType && this.workflowName == workflowName
      ensures this.workflowStages == workflowStages && this.spec == spec
    {
      this.name := name;
      this.jobType := jobType;
      this.workflowName := workflowName;
      this.workflowStages := workflowStages;
      this.spec := spec;
    }

    /** Forget the selected targets. */
    method ClearSelectionField()
      modifies this
      ensures spec == old(spec).(targets := [])
      ensures name == old(name) && jobType == old(jobType) && workflowName == old(workflowName)
      ensures workflowStages == old(workflowStages)
    {
      spec := spec.(targets := []);
    }

    /** Take the targets of the runtime arguments of a job with the same name and kind. */
    method MergeArgs(args: Job)
      modifies this
      ensures name == old(name) && jobType == old(jobType) && workflowName == old(workflowName)
      ensures workflowStages == old(workflowStages)
      ensures !(old(name) == args.name && old(jobType) == args.jobType) ==> spec == old(spec)
      ensures old(name) == args.name && old(jobType) == args.jobType ==>
        spec == old(spec).(targets := AsDistributeSpec(args.spec).targets)
    {
      if name == args.name && jobType == args.jobType {
        spec := spec.(targets := AsDistributeSpec(args.spec).targets);
      }
    }

    /**
     * Bring the job up to the latest saved workflow: find the job of the
     * same name and kind there (an error if there is none) and adopt its
     * settings.
     */
    method UpdateWithLatestSetting(latestStages: seq<Stage>) returns (err: Option<string>)
      modifies this
      ensures name == old(name) && jobType == old(jobType) && workflowName == old(workflowName)
      ensures workflowStages == old(workflowStages)
      ensures FindJob(latestStages, old(name), old(jobType)).None? ==>
        err == Some(LatestWorkflowMissing + old(workflowName)) && spec == old(spec)
      ensures FindJob(latestStages, old(name), old(jobType)).Some? ==>
        err.None? && spec == LatestDistributeSpec(old(spec),
                               AsDistributeSpec(FindJob(latestStages, old(name), old(jobType)).value.spec))
    {
      var found := FindJob(latestStages, name, jobType);
      if found.None? {
        return Some(LatestWorkflowMissing + workflowName);
      }
      var latest := AsDistributeSpec(found.value.spec);
      var s := spec;
      if s.source == SourceFromJob && latest.source == SourceRuntime {
        s := s.(targets := []);
      }
      s := s.(source := latest.source);
      if s.source == SourceFromJob {
        s := s.(jobName := latest.jobName);
      } else {
        s := s.(sourceRegistryID := latest.sourceRegistryID);
      }
      s := s.(targetRegistryID := latest.targetRegistryID, timeout := latest.timeout,
              clusterID := latest.clusterID, strategyID := latest.strategyID,
              enableTargetImageTagRule := latest.enableTargetImageTagRule,
              targetImageTagRule := latest.targetImageTagRule);
      spec := s;
      err := None;
    }

    /** A FromJob job may quote only a job of an earlier rank. */
    method LintJob(ranks: map<string, nat>) returns (err: Option<string>)
      ensures err == LintError(name, spec, ranks)
    {
      if spec.source != SourceFromJob {
        return None;
      }
      if spec.jobName !in ranks || ranks[spec.jobName] >= RankOf(ranks, name) {
        return Some("can not quote job " + spec.jobName + " in job " + name);
      }
      return None;
    }

    /**
     * Compile the job into its single task; on success the job keeps the
     * settled, published targets.
     */
    method ToJobs(env: DistributeEnvironment) returns (resp: seq<JobTask>, err: Option<string>)
      modifies this
      ensures name == old(name) && jobType == old(jobType) && workflowName == old(workflowName)
      ensures workflowStages == old(workflowStages)
      ensures var o := DistributeToJobs(old(name), old(workflowStages), old(spec), env);
        resp == o.tasks && err == o.err && spec == o.spec
    {
      if spec.sourceRegistryID !in env.registries {
        return [], Some(SourceRegistryPrefix + spec.sourceRegistryID + RegistryMissingSuffix);
      }
      if spec.targetRegistryID !in env.registries {
        return [], Some(TargetRegistryPrefix + spec.targetRegistryID + RegistryMissingSuffix);
      }
      var sourceReg := env.registries[spec.sourceRegistryID];
      var targetReg := env.registries[spec.targetRegistryID];
      var s := spec;
      if s.source == SourceFromJob {
        var quoted := GetOriginReferredJobTargets(workflowStages, env.originJobName(s.jobName), s.jobName,
                                                  env.envRegistries);
        if quoted.Err? {
          return [], Some(ReferredInfoPrefix + name + ReferredInfoMiddle + quoted.msg);
        }
        var saved := BuildTagMap(s.targets);
        var tagged := TagQuotedTargets(quoted.value.targets, s, saved);
        s := s.(sourceRegistryID := quoted.value.registryID, targets := tagged);
      } else if s.source == SourceRuntime {
        var settled := SetRuntimeTargets(s.targets, s, sourceReg);
        s := s.(targets := settled);
      }
      var published, stepTargets := PublishTargets(name, s.targets);
      var step := StepTask("distribute", "", StepDistributeImage, DistributeStepSpec(sourceReg, targetReg, stepTargets));
      var task := JobTask(name, name, map[JobNameKey := name], JobZadigDistributeImage, TaskTimeout(s.timeout), [], [step]);
      spec := s.(targets := published);
      return [task], None;
    }

    /** The IMAGE output key of each target, in order. */
    method GetOutPuts() returns (outs: seq<string>)
      ensures outs == DistributeOutputs(name, spec)
    {
      outs := [];
      var i := 0;
      while i < |spec.targets|
        invariant 0 <= i <= |spec.targets|
        invariant |outs| == i && forall k :: 0 <= k < i ==> outs[k] == TargetImageKey(name, spec.targets[k])
      {
        var t := spec.targets[i];
        outs := outs + [JobOutputKey(TaskKey(name, t.serviceName, t.serviceModule), ImageKey)];
        i := i + 1;
      }
    }
  }
}
