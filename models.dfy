// The workflow records shared by the job compilers: key/value parameters,
// code repositories, the per-kind job specifications, the stages of a
// workflow, and the job tasks and step tasks that compiling a job yields.

module Models {
  import opened Common

  /** A workflow or build parameter. */
  datatype KeyVal = KeyVal(
    key: string,
    value: string,
    kind: string,
    isCredential: bool,
    choiceOption: seq<string>)

  /** A code repository as the workflow and the notifications see it. */
  datatype Repository = Repository(
    source: string,
    repoOwner: string,
    repoNamespace: string,
    repoName: string,
    branch: string,
    tag: string,
    pr: int,
    prs: seq<int>,
    filterRegexp: string,
    checkoutPath: string,
    remoteName: string,
    address: string,
    commitID: string,
    commitMessage: string,
    isPrimary: bool)

  /** A named output a job task publishes for later jobs. */
  datatype Output = Output(name: string)

  /** Where a job takes its services from. */
  datatype Source = SourceRuntime | SourceFromJob | SourceOther(raw: string)

  /** The job kinds the workflow engine knows; any other kind keeps its raw name. */
  datatype JobType =
    | JobZadigBuild | JobZadigDeploy | JobZadigHelmDeploy | JobCustomDeploy
    | JobFreestyle | JobPlugin | JobZadigTesting | JobZadigScanning
    | JobZadigDistributeImage | JobK8sBlueGreenDeploy | JobK8sBlueGreenRelease
    | JobK8sCanaryDeploy | JobK8sCanaryRelease | JobK8sGrayRelease
    | JobK8sGrayRollback | JobK8sPatch | JobIstioRelease | JobIstioRollback
    | JobJira | JobNacos | JobApollo | JobMeegoTransition
    | JobOther(raw: string)

  /**
   * The status of a workflow task, stage or job. NotRun is the empty status
   * of a job that never started; any other status keeps its raw name. Each
   * named status stands for its own distinct configuration string.
   */
  datatype Status =
    | NotRun | Created | Running | Passed | Failed | Timeout | Cancelled
    | Reject | WaitingApprove | Changed
    | OtherStatus(raw: string)

  // ---------------------------------------------------------------------
  // Build jobs

  datatype ServiceAndBuild = ServiceAndBuild(
    serviceName: string,
    serviceModule: string,
    buildName: string,
    imageName: string,
    image: string,
    package: string,
    keyVals: seq<KeyVal>,
    repos: seq<Repository>)

  datatype BuildJobSpec = BuildJobSpec(
    dockerRegistryID: string,
    serviceAndBuilds: seq<ServiceAndBuild>)

  // ---------------------------------------------------------------------
  // Image registries

  /** An image registry: its address, namespace and credentials. */
  datatype Registry = Registry(regAddr: string, namespace: string, accessKey: string, secretKey: string)

  // ---------------------------------------------------------------------
  // Image-distribute jobs

  datatype DistributeTarget = DistributeTarget(
    serviceName: string,
    serviceModule: string,
    imageName: string,
    sourceTag: string,
    sourceImage: string,
    targetTag: string,
    targetImage: string,
    updateTag: bool)

  datatype DistributeJobSpec = DistributeJobSpec(
    source: Source,
    jobName: string,
    sourceRegistryID: string,
    targetRegistryID: string,
    targets: seq<DistributeTarget>,
    timeout: int,
    clusterID: string,
    strategyID: string,
    enableTargetImageTagRule: bool,
    targetImageTagRule: string)

  // ---------------------------------------------------------------------
  // Deploy jobs (only what other jobs read from them)

  datatype DeployModule = DeployModule(serviceModule: string)
  datatype DeployService = DeployService(serviceName: string, modules: seq<DeployModule>)
  datatype DeployJobSpec = DeployJobSpec(env: string, services: seq<DeployService>)

  // ---------------------------------------------------------------------
  // Scanning jobs

  datatype ServiceTestTarget = ServiceTestTarget(serviceName: string, serviceModule: string)

  datatype ScanningModule = ScanningModule(
    name: string,
    projectName: string,
    keyVals: seq<KeyVal>,
    repos: seq<Repository>)

  /** A scanning bound to one service module. */
  datatype ServiceAndScannings = ServiceAndScannings(
    scanning: ScanningModule,
    serviceName: string,
    serviceModule: string)

  datatype ScanningType = NormalScanning | ServiceScanning | OtherScanning(raw: string)

  datatype ScanningJobSpec = ScanningJobSpec(
    scanningType: ScanningType,
    scannings: seq<ScanningModule>,
    serviceAndScannings: seq<ServiceAndScannings>,
    targetServices: seq<ServiceTestTarget>,
    source: Source,
    jobName: string,
    originJobName: string)

  // ---------------------------------------------------------------------
  // Workflows

  /** The decoded specification a job carries, by kind. */
  datatype JobSpec =
    | BuildSpec(build: BuildJobSpec)
    | DistributeSpec(distribute: DistributeJobSpec)
    | DeploySpec(deploy: DeployJobSpec)
    | ScanningSpec(scanning: ScanningJobSpec)
    | NoSpec

  datatype Job = Job(name: string, jobType: JobType, spec: JobSpec)

  datatype Stage = Stage(name: string, jobs: seq<Job>)

  /** Decoding a job's spec as a build spec; a spec of another kind decodes to the empty spec. */
  function AsBuildSpec(s: JobSpec): BuildJobSpec
  {
    if s.BuildSpec? then s.build else BuildJobSpec("", [])
  }

  function AsDistributeSpec(s: JobSpec): DistributeJobSpec
  {
    if s.DistributeSpec? then s.distribute
    else DistributeJobSpec(SourceOther(""), "", "", "", [], 0, "", "", false, "")
  }

  function AsDeploySpec(s: JobSpec): DeployJobSpec
  {
    if s.DeploySpec? then s.deploy else DeployJobSpec("", [])
  }

  function AsScanningSpec(s: JobSpec): ScanningJobSpec
  {
    if s.ScanningSpec? then s.scanning
    else ScanningJobSpec(OtherScanning(""), [], [], [], SourceOther(""), "", "")
  }

  /** All jobs of a workflow, stage by stage, in order. */
  function AllJobs(stages: seq<Stage>): (r: seq<Job>)
    ensures forall i, j :: 0 <= i < |stages| && 0 <= j < |stages[i].jobs| ==> stages[i].jobs[j] in r
    ensures forall job :: job in r ==> exists i :: 0 <= i < |stages| && job in stages[i].jobs
  {
    if |stages| == 0 then [] else stages[0].jobs + AllJobs(stages[1..])
  }

  // ---------------------------------------------------------------------
  // Compiled tasks

  datatype StepType =
    | StepTools | StepDownloadArchive | StepGit | StepDebugBefore | StepShell
    | StepBatchFile | StepPowerShell | StepDebugAfter | StepDockerBuild
    | StepTarArchive | StepArchive | StepDistributeImage | StepUnset

  /** The part of a step's spec this model follows. */
  datatype StepSpec =
    | NoStepSpec
    | DownloadArchiveSpec(objectPath: string, destDir: string)
    | GitSpec(repos: seq<Repository>)
    | DockerBuildSpec(imageName: string, imageReleaseTag: string, repos: seq<Repository>)
    | TarArchiveSpec(s3DestDir: string, tarDir: string)
    | ArchiveSpec(fileLocation: string, packageName: string)
    | ObjectStorageSpec(objectStorageID: string)
    | DistributeStepSpec(sourceRegistry: Registry, targetRegistry: Registry, targets: seq<DistributeTaskTarget>)

  /** One target of the image-distribute step. */
  datatype DistributeTaskTarget = DistributeTaskTarget(
    sourceImage: string,
    serviceName: string,
    serviceModule: string,
    targetTag: string,
    updateTag: bool,
    targetImage: string)

  datatype StepTask = StepTask(name: string, jobName: string, stepType: StepType, spec: StepSpec)

  datatype JobTask = JobTask(
    name: string,
    key: string,
    jobInfo: map<string, string>,
    jobType: JobType,
    timeout: int,
    outputs: seq<Output>,
    steps: seq<StepTask>)

  /** The JobInfo key under which every job task records its job's name. */
  const JobNameKey := "job_name"
}
