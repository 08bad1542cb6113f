# Zadig workflow job compiler, in Dafny

This project models the deterministic heart of Zadig's workflow engine and
proves properties of the model. Each Go file of the modelled core becomes one
Dafny module:

- `Models` holds the shared records of `commonmodels`: key/values,
  repositories, job specs, distribute targets, scanning modules.
- `Common` holds `Option`/`Result`, the Go string helpers the core calls
  (`strings.TrimPrefix`, `TrimLeft`, `TrimSpace`, `ToLower` on ASCII letters, `ReplaceAll`),
  Go's truncating division, the job output key, and two list idioms.
  `FilterMap` stands for "append the items that pass, in order". `RunAll`
  stands for "run each item, stop at the first error".
- `JobBuild` and `JobBuildJob` cover the build job (`job_build.go`).
  - Repository and key/value merging: `renderKeyVals`, `mergeRepos`,
    `renderRepos`, `renderEnv`, `replaceWrapLine`.
  - Output-key completion and the cache path.
  - `ClearSelectionField`, `MergeArgs`, `UpdateWithLatestSetting`.
  - `ToJobs`: one job task per selected service, with its key and its
    ordered steps.
- `JobScanning` covers the code-scanning job (`job_scanning.go`): `SetPreset`,
  the selection and argument merges, the job keys, the pairing of targets in
  `ToJobs`, and the walk of the workflow's stages that finds the referred job.
- `JobDistributeImage` covers the image-distribute job
  (`job_distribute_image.go`).
  - Forward-reference linting.
  - Image, tag and timeout helpers.
  - Settings refresh, and resolution of the quoted build or referred job.
  - Target and tag rules in `ToJobs`, and `GetOutPuts`.
- `StepDistributeImage` covers the distribute step's controller: `PreRun`
  rewrites each target's image, and `AfterRun` publishes one key per target
  into the global context.
- `JobSql` covers the SQL job controller. It splits the text after every
  `;`, records one result per statement, executes in order through a database
  oracle, stops at the first failure, and saves the duration.
- `Cronjob` covers cronjob reconciliation (`UpdateCronjob`) over an in-memory
  collection, and `HandleCronjob`'s enable/disable payload.
- `WorkflowTask` covers the notification rules (`workflow_task.go`).
  - When a task or approval notification fires, and to whom.
  - The status, icon, colour and job-type tables.
  - The commit and pull-request summary of the notification content.
- `Resource` covers the permission resource definitions: grouping,
  environment-type filtering and ordering.
- `CollaborationMode` covers member validation and the guards around the
  collaboration-mode store.
- `TimeUtil` covers `Age`, with the current time passed in, and
  `GetDailyStartTimestamps`.
- `VMLog` covers the VM job cache key, `GetObjectPath` (with `filepath.Join`
  and path cleaning), and the folder and file-name formulas of the log upload.
- `TemplateErr` covers the `<.key>` extraction that makes template errors
  readable.

Where Go mutates records in place, the model does the same; this includes the repositories of the build and scanning entries that the compilers render. The exceptions are records Go shares between entries through caches or pointers; they are listed under "## Left out".
- Controllers and jobs that update their own fields are classes with
  `modifies` clauses: the build, scanning and distribute jobs' `spec`, the
  SQL controller, the cronjob collection, the message queue and the
  collaboration store.
- Loops that build lists are methods with loop invariants. Each is proved
  equal to a specification function, and the promised properties are proved
  about that function.
- Database, registry and storage lookups are inputs: maps, or `Result`
  values for lookups that can fail.
- The SQL driver and `SetTargetImage` are function parameters.

Some behaviours of the code are easy to misread; the model follows the code.
- In the scanning job's `MergeArgs`, a service is paired by scanning name and
  service name only; the module is not compared.
- The distribute step's source registry is looked up from the saved
  `SourceRegistryID` even when the source is an earlier job.
- In `renderRepos` an input repository is a pointer. A repository matched by
  two origins is therefore rendered twice; the model keeps the indices that
  make this visible.
- A whitespace-only SQL piece is kept and becomes the empty statement.
- The job-level status table has no Created case, so Created reads as a
  failure there.

## Model

| member | source | states |
|---|---|---|
| Models.AllJobs | pkg/microservice/aslan/core/workflow/service/workflow/job/job_scanning.go:734-735 | every job of every stage is listed, and nothing else is |
| JobBuild.RenderedValueIsLastMatch | pkg/microservice/aslan/core/workflow/service/workflow/job/job_build.go:788-793 | a parameter's value is that of the last input entry with its key, or its own value when no input entry has the key |
| JobBuild.RenderedValueIgnoresDefault | pkg/microservice/aslan/core/workflow/service/workflow/job/job_build.go:788-793 | once an input entry carries the key, the template's own value no longer matters |
| JobBuild.RenderedKeyVals | pkg/microservice/aslan/core/workflow/service/workflow/job/job_build.go:777-797 | the result has exactly the template's parameters in the template's order; key, type, credential flag and choices always come from the template, only the value may come from the input |
| JobBuild.RenderKeyVals | pkg/microservice/aslan/core/workflow/service/workflow/job/job_build.go:777-797 | the loop over template and input builds exactly the list RenderedKeyVals describes |
| JobBuild.RenderKeyValsIdempotent | pkg/microservice/aslan/core/workflow/service/workflow/job/job_build.go:777-797 | rendering the same input a second time changes nothing |
| JobBuild.RenderKeyValsNoOverride | pkg/microservice/aslan/core/workflow/service/workflow/job/job_build.go:777-797 | an input that names none of the template's keys leaves the template unchanged |
| JobBuild.DefaultNamespace | pkg/microservice/aslan/core/workflow/service/workflow/job/job_build.go:932-934 | an empty namespace is filled with the owner and no other field changes |
| JobBuild.LastKeyIndex | pkg/microservice/aslan/core/workflow/service/workflow/job/job_build.go:931-937 | the position found is the last custom repository with the key, and none is found only when no custom repository has it |
| JobBuild.CustomRepoMapLastWins | pkg/microservice/aslan/core/workflow/service/workflow/job/job_build.go:930-937 | the custom-repository map holds a key exactly when some custom repository has it, and then holds the last such repository |
| JobBuild.MergeRepo | pkg/microservice/aslan/core/workflow/service/workflow/job/job_build.go:939-950 | merging one template repository changes at most its branch, tag, PR, PR list and filter (besides the defaulted namespace) |
| JobBuild.MergeRepos | pkg/microservice/aslan/core/workflow/service/workflow/job/job_build.go:929-953 | the two loops of mergeRepos compute the merged list that MergedRepos describes |
| JobBuild.MergedReposTakeLastCustom | pkg/microservice/aslan/core/workflow/service/workflow/job/job_build.go:938-951 | a template repository with a matching custom repository takes the branch settings of the last match; any other stays as it was |
| JobBuild.MergeReposIdempotent | pkg/microservice/aslan/core/workflow/service/workflow/job/job_build.go:929-953 | merging the same custom repositories twice equals merging them once |
| JobBuild.AlphaNumPrefix | pkg/microservice/aslan/core/workflow/service/workflow/job/job_build.go:926 | the variable name after '$' is the longest run of letters, digits and underscores |
| JobBuild.CloseBrace | pkg/microservice/aslan/core/workflow/service/workflow/job/job_build.go:926 | a "${" name ends at the first '}' |
| JobBuild.ShellName | pkg/microservice/aslan/core/workflow/service/workflow/job/job_build.go:926 | the name read after a '$' never reaches past the end of the text |
| JobBuild.EnvLookupFirstMatch | pkg/microservice/aslan/core/workflow/service/workflow/job/job_build.go:915-925 | renderEnv's mapper yields the value of the first parameter with the name, and "$NAME" when there is none |
| JobBuild.ExpandWithoutDollar | pkg/microservice/aslan/core/workflow/service/workflow/job/job_build.go:914-927 | a text without '$' renders to itself |
| JobBuild.ExpandBraced | pkg/microservice/aslan/core/workflow/service/workflow/job/job_build.go:914-927 | "${KEY}" renders to the lookup of KEY |
| JobBuild.ExpandPlain | pkg/microservice/aslan/core/workflow/service/workflow/job/job_build.go:914-927 | "$KEY" with a plain name renders to the lookup of KEY |
| JobBuild.RenderRepo | pkg/microservice/aslan/core/workflow/service/workflow/job/job_build.go:805-808 | rendering a job repository changes only its checkout path and an empty remote name, which becomes "origin" |
| JobBuild.RenderRepoTimes | pkg/microservice/aslan/core/workflow/service/workflow/job/job_build.go:803-811 | rendering a repository any number of times keeps its name and owner |
| JobBuild.LastMatch | pkg/microservice/aslan/core/workflow/service/workflow/job/job_build.go:803-810 | the slot refers to the last job repository with the template repository's name and owner, or to none when no job repository has them |
| JobBuild.LastMatchByName | pkg/microservice/aslan/core/workflow/service/workflow/job/job_build.go:804 | only names and owners decide which job repository matches, so rendering does not move the match |
| JobBuild.RenderedAfter | pkg/microservice/aslan/core/workflow/service/workflow/job/job_build.go:801-812 | the passes for all template repositories keep the number, names and owners of the job repositories |
| JobBuild.RenderAt | pkg/microservice/aslan/core/workflow/service/workflow/job/job_build.go:804-810 | one job repository is rendered in place exactly when it matches; every other one is untouched |
| JobBuild.RenderPass | pkg/microservice/aslan/core/workflow/service/workflow/job/job_build.go:802-811 | one pass renders each matching job repository in place and leaves the slot at the last match |
| JobBuild.LastMatches | pkg/microservice/aslan/core/workflow/service/workflow/job/job_build.go:801-812 | each slot is decided by the last match for its own template repository |
| JobBuild.RenderRepos | pkg/microservice/aslan/core/workflow/service/workflow/job/job_build.go:799-814 | each job repository is rendered once per template repository naming it; slot i holds the template repository when nothing matches and otherwise the final state of the last matching job repository |
| JobBuild.RenderedOnceWhenMatchedOnce | pkg/microservice/aslan/core/workflow/service/workflow/job/job_build.go:801-812 | a job repository that one template repository names is rendered exactly once |
| JobBuild.DoubleRenderExample | pkg/microservice/aslan/core/workflow/service/workflow/job/job_build.go:801-812 | two template entries for the same repository expand its checkout path twice, so "$A" with A="$B", B="x" ends as "x", not "$B" |
| JobBuild.ReplaceWrapLineRemovesCR | pkg/microservice/aslan/core/workflow/service/workflow/job/job_build.go:816-823 | no carriage return survives |
| JobBuild.ReplaceWrapLineKeepsPlain | pkg/microservice/aslan/core/workflow/service/workflow/job/job_build.go:816-823 | a script without carriage returns is unchanged |
| JobBuild.ReplaceWrapLineIdempotent | pkg/microservice/aslan/core/workflow/service/workflow/job/job_build.go:816-823 | normalising line ends twice equals doing it once |
| JobBuild.MissingOutputs | pkg/microservice/aslan/core/workflow/service/workflow/job/job_build.go:996-1010 | exactly the required names that are not present are appended |
| JobBuild.WithRequiredOutputsComplete | pkg/microservice/aslan/core/workflow/service/workflow/job/job_build.go:991-1012 | the outputs are kept as a prefix, every required name is then present, and only missing required names are added |
| JobBuild.MissingOutputsNone | pkg/microservice/aslan/core/workflow/service/workflow/job/job_build.go:996-1010 | nothing is added when every required name is present |
| JobBuild.WithRequiredOutputsIdempotent | pkg/microservice/aslan/core/workflow/service/workflow/job/job_build.go:991-1012 | ensuring the outputs twice equals ensuring them once |
| JobBuild.OutputKeys | pkg/microservice/aslan/core/workflow/service/workflow/job/job_build.go:992-995 | the key set holds exactly the outputs' names |
| JobBuild.EnsureBuildInOutputs | pkg/microservice/aslan/core/workflow/service/workflow/job/job_build.go:991-1012 | IMAGE, imageTag and PKG_FILE are appended in that order, each only when missing |
| JobBuildJob.CacheObjectPathInjective | pkg/microservice/aslan/core/workflow/service/workflow/job/job_build.go:1014-1016 | the cache path "{workflow}/cache/{service}/{module}" identifies the service module when service names lack '/' |
| JobBuildJob.ModelS3ToS3 | pkg/microservice/aslan/core/workflow/service/workflow/job/job_build.go:847-862 | every storage field is copied, and the protocol is "http" exactly for an insecure store |
| JobBuildJob.ClearedSelection | pkg/microservice/aslan/core/workflow/service/workflow/job/job_build.go:136-141 | the selection is emptied unless it holds exactly one entry, in which case it is kept; the registry is kept |
| JobBuildJob.BuildJob.ClearSelectionField | pkg/microservice/aslan/core/workflow/service/workflow/job/job_build.go:131-144 | the job's spec becomes the cleared selection and nothing else about the job changes |
| JobBuildJob.FirstSameBuild | pkg/microservice/aslan/core/workflow/service/workflow/job/job_build.go:298-304 | the argument entry used is the first one with the stored entry's build, service and module, and none is used only when no argument entry has them |
| JobBuildJob.FirstSameBuildIs | pkg/microservice/aslan/core/workflow/service/workflow/job/job_build.go:298-304 | the first argument entry with the stored entry's target is the one found |
| JobBuildJob.MergeBuild | pkg/microservice/aslan/core/workflow/service/workflow/job/job_build.go:300-301 | merging an argument entry into a stored one changes only its repositories and parameters, keeping their counts |
| JobBuildJob.MergedBuildsSelected | pkg/microservice/aslan/core/workflow/service/workflow/job/job_build.go:296-307 | the merged selection is the stored entries some argument entry names, in stored order, each merged with the first argument entry naming it |
| JobBuildJob.MergeWithFirstArg | pkg/microservice/aslan/core/workflow/service/workflow/job/job_build.go:298-304 | the inner loop merges a stored entry with the first matching argument entry and reports whether one matched |
| JobBuildJob.MergeBuildsWithArgs | pkg/microservice/aslan/core/workflow/service/workflow/job/job_build.go:296-306 | the outer loop builds exactly the merged selection |
| JobBuildJob.BuildJob.MergeArgs | pkg/microservice/aslan/core/workflow/service/workflow/job/job_build.go:285-311 | a job of another name or kind leaves the spec untouched; otherwise the selection becomes the merged selection and nothing else changes |
| JobBuildJob.UserBuildMap | pkg/microservice/aslan/core/workflow/service/workflow/job/job_build.go:347-352 | every user entry's "service++module" key is in the map, and each key maps to a user entry with that key |
| JobBuildJob.UserConfigured | pkg/microservice/aslan/core/workflow/service/workflow/job/job_build.go:347-352 | the loop builds the user map, the later of two entries with one key winning |
| JobBuildJob.FindJob | pkg/microservice/aslan/core/workflow/service/workflow/job/job_build.go:324-340 | the job found is the first, stage by stage, with the name and kind, and none is found only when no job has them |
| JobBuildJob.RefreshedBuild | pkg/microservice/aslan/core/workflow/service/workflow/job/job_build.go:373-391 | a refreshed entry keeps the latest entry's service, module, build, image name, image and package |
| JobBuildJob.TargetOf | pkg/microservice/aslan/core/workflow/service/workflow/job/job_build.go:900-909 | the target found is the first for the service module, and there is one exactly when the build is configured for the module |
| JobBuildJob.FilledBuild | pkg/microservice/aslan/core/workflow/service/workflow/job/job_build.go:864-911 | a build not made from a template stays as saved; a missing template is an error naming its id; otherwise the build takes every template setting and, for a module it is configured for, that module's own repositories and the template's variables merged with the module's |
| JobBuildJob.FilledBuildPerModule | pkg/microservice/aslan/core/workflow/service/workflow/job/job_build.go:900-909 | filling a template build for one module and then another gives the second module's own record, as filling it for the second alone does |
| JobBuildJob.FilledBuildIdempotent | pkg/microservice/aslan/core/workflow/service/workflow/job/job_build.go:864-911 | filling a filled build again for the same module changes nothing |
| JobBuildJob.FillBuildDetail | pkg/microservice/aslan/core/workflow/service/workflow/job/job_build.go:864-911 | the step-by-step fill gives the record FilledBuild describes, or its error |
| JobBuildJob.FindBuild | pkg/microservice/aslan/core/workflow/service/workflow/job/job_build.go:453-467 | an entry's build is looked up by name, then filled in for the entry's own service module |
| JobBuildJob.RefreshFromBuild | pkg/microservice/aslan/core/workflow/service/workflow/job/job_build.go:373-379 | an entry is refreshed from its build, as filled in for the entry's module, exactly when the build targets that module |
| JobBuildJob.RefreshBuilds | pkg/microservice/aslan/core/workflow/service/workflow/job/job_build.go:357-397 | the loop keeps the latest entries the user selected whose build exists and fills in for their module, each refreshed from that filled build and merged |
| JobBuildJob.RefreshedBuildsSelected | pkg/microservice/aslan/core/workflow/service/workflow/job/job_build.go:357-397 | the refreshed selection follows the latest workflow's order and holds exactly the latest entries the user selected whose build exists and fills in for their module, each refreshed from its own module's filled build and carrying the user's values |
| JobBuildJob.BuildJob.UpdateWithLatestSetting | pkg/microservice/aslan/core/workflow/service/workflow/job/job_build.go:313-403 | a missing job in the latest workflow is an error that leaves the spec unchanged; otherwise the spec takes the latest registry and the refreshed selection |
| JobBuildJob.TaskKeyInjective | pkg/microservice/aslan/core/workflow/service/workflow/job/job_build.go:485 | the job task key "job.service.module" identifies the service module when service names lack '.' |
| JobBuildJob.ImageOf | pkg/microservice/aslan/core/workflow/service/workflow/job/job_build.go:443-449 | the image is "addr/[namespace/]tag" without a leading "http://" or "https://" |
| JobBuildJob.CacheOf | pkg/microservice/aslan/core/workflow/service/workflow/job/job_build.go:510-534 | a VM build keeps its own cache settings; otherwise a cluster without a cache medium disables caching; a cache is enabled only when the build enables it, and an enabled container cache has the user directory with the job's variables rendered in |
| JobBuildJob.ResolveCache | pkg/microservice/aslan/core/workflow/service/workflow/job/job_build.go:510-543 | a missing cluster and a missing cache object storage are errors with the source's messages; otherwise the cache is CacheOf |
| JobBuildJob.OpeningRanks | pkg/microservice/aslan/core/workflow/service/workflow/job/job_build.go:551-605 | the steps before the script rank tool-install, download-archive (only with an object cache), git, debug_before |
| JobBuildJob.MiddleRanks | pkg/microservice/aslan/core/workflow/service/workflow/job/job_build.go:589-644 | git, debug_before, script and debug_after follow one another |
| JobBuildJob.ScriptRank | pkg/microservice/aslan/core/workflow/service/workflow/job/job_build.go:615-636 | whatever the script type, the script step sits between debug_before and debug_after |
| JobBuildJob.ClosingRanks | pkg/microservice/aslan/core/workflow/service/workflow/job/job_build.go:645-770 | docker-build, tar-archive, pkgfile-archive, object-storage and post-shell follow in that order, each present exactly when its condition holds |
| JobBuildJob.OpeningRanksIncreasing | pkg/microservice/aslan/core/workflow/service/workflow/job/job_build.go:551-605 | the opening steps are in strictly increasing rank order |
| JobBuildJob.ClosingRanksIncreasing | pkg/microservice/aslan/core/workflow/service/workflow/job/job_build.go:645-770 | the closing steps are in strictly increasing rank order, all after debug_after |
| JobBuildJob.ExpectedRanksIncreasing | pkg/microservice/aslan/core/workflow/service/workflow/job/job_build.go:551-770 | the whole step list is in strictly increasing rank order |
| JobBuildJob.ExpectedRanksMembers | pkg/microservice/aslan/core/workflow/service/workflow/job/job_build.go:551-770 | tool-install comes first; git, debug_before, script and debug_after are always present; every optional step is present exactly when its condition holds |
| JobBuildJob.BuildStepsBelong | pkg/microservice/aslan/core/workflow/service/workflow/job/job_build.go:559-769 | every step records the job task's name as its job name |
| JobBuildJob.BuildStepsOrdered | pkg/microservice/aslan/core/workflow/service/workflow/job/job_build.go:551-770 | a build task's steps run in the fixed order tool-install, [download-archive], git, debug_before, script, debug_after, [docker-build], [tar-archive], [pkgfile-archive], [object-storage], [post-shell], each optional step present exactly when its condition holds |
| JobBuildJob.AssembleOpening | pkg/microservice/aslan/core/workflow/service/workflow/job/job_build.go:551-605 | appending the opening steps one by one gives the opening step list |
| JobBuildJob.AssembleClosing | pkg/microservice/aslan/core/workflow/service/workflow/job/job_build.go:645-770 | appending the closing steps one by one gives the closing step list, and a missing upload storage is reported |
| JobBuildJob.AssembleSteps | pkg/microservice/aslan/core/workflow/service/workflow/job/job_build.go:551-770 | the steps appended one by one are the build task's step list, unless the upload object storage is missing, which is reported |
| JobBuildJob.CompileBuildKeepsEntry | pkg/microservice/aslan/core/workflow/service/workflow/job/job_build.go:545-547 | compiling an entry changes only its image, package and repository state, and a compiled entry's image and package refer to its task's IMAGE and PKG_FILE outputs |
| JobBuildJob.CompileBuildTask | pkg/microservice/aslan/core/workflow/service/workflow/job/job_build.go:476-493 | a compiled task is a build task that records the service, module and job name and declares the IMAGE, imageTag and PKG_FILE outputs |
| JobBuildJob.CompileEntry | pkg/microservice/aslan/core/workflow/service/workflow/job/job_build.go:441-771 | one pass of the loop body compiles an entry exactly as CompileWith describes, against its build filled in for the entry's own service module, errors included: the build, template, base-image, registry-listing, cluster, cache-storage and upload-storage failures, in that order |
| JobBuildJob.CompileFoundEntry | pkg/microservice/aslan/core/workflow/service/workflow/job/job_build.go:468-771 | once the build is found and filled in, the rest of the loop body compiles the entry as CompileFound describes |
| JobBuildJob.CompileBuildRegistryListFails | pkg/microservice/aslan/core/workflow/service/workflow/job/job_build.go:472-475 | a failed registry namespace listing stops an entry whose build, template and base image were found, with the listing's own error and the entry unchanged |
| JobBuildJob.CompileAll | pkg/microservice/aslan/core/workflow/service/workflow/job/job_build.go:440-772 | every entry is kept; without an error there is one task per entry, and with one there are fewer tasks than entries |
| JobBuildJob.CompileAllPerEntry | pkg/microservice/aslan/core/workflow/service/workflow/job/job_build.go:440-772 | with no error, task i is entry i compiled; with an error, the entries before the failing one are compiled, the failing one carries the message, and the later entries are untouched |
| JobBuildJob.CompileAllCompiled | pkg/microservice/aslan/core/workflow/service/workflow/job/job_build.go:440-772 | the entries before the first failure are compiled, in order and in place |
| JobBuildJob.CompileAllFailed | pkg/microservice/aslan/core/workflow/service/workflow/job/job_build.go:440-772 | the failing entry's error is returned, the entry keeps what its compilation left and the later entries are untouched |
| JobBuildJob.CompileAllDistinctKeys | pkg/microservice/aslan/core/workflow/service/workflow/job/job_build.go:485 | distinct service modules whose service names lack '.' give distinct task keys |
| JobBuildJob.CompileEntries | pkg/microservice/aslan/core/workflow/service/workflow/job/job_build.go:440-772 | the loop computes what CompileAll describes |
| JobBuildJob.ToJobsResult | pkg/microservice/aslan/core/workflow/service/workflow/job/job_build.go:417-775 | compiling a job keeps the number of entries |
| JobBuildJob.BuildJob.ToJobs | pkg/microservice/aslan/core/workflow/service/workflow/job/job_build.go:417-775 | a missing registry or default storage is an error before any entry is compiled; otherwise the job tasks, error and updated entries are those of the per-entry compilation |
| JobScanning.EnsureScanningOutputs | pkg/microservice/aslan/core/workflow/service/workflow/job/job_scanning.go:841-857 | the outputs are followed by the metrics output and then the project output, each appended only when missing |
| JobScanning.ScanningOutputsComplete | pkg/microservice/aslan/core/workflow/service/workflow/job/job_scanning.go:841-857 | the input outputs are kept as a prefix, both scanning outputs are present afterwards, at most two entries are added, and completing twice equals completing once |
| JobScanning.ScanningCachePathsApart | pkg/microservice/aslan/core/workflow/service/workflow/job/job_scanning.go:837-839 | the cache path "{workflow}/cache/{scanning}" identifies the scanning and never collides with a build's per-module cache path |
| JobScanning.ScanningTaskKeyInjective | pkg/microservice/aslan/core/workflow/service/workflow/job/job_scanning.go:380-383 | the key "job.scanning", or "job.scanning.service.module" for service scanning, identifies the scanning and the service module |
| JobScanning.ScanningJobInfo | pkg/microservice/aslan/core/workflow/service/workflow/job/job_scanning.go:369-378 | JobInfo always holds the job name, scanning name and scanning type, and holds service_name and service_module exactly for service scanning |
| JobScanning.ScanningTask | pkg/microservice/aslan/core/workflow/service/workflow/job/job_scanning.go:345-362 | a scanning missing from the store is an error with the source's message |
| JobScanning.ScanningTaskRegistryListFails | pkg/microservice/aslan/core/workflow/service/workflow/job/job_scanning.go:355-362 | once the scanning and its base image are found, a failed registry listing is the error "list registries error: " followed by the listing's error |
| JobScanning.ScanningTaskFields | pkg/microservice/aslan/core/workflow/service/workflow/job/job_scanning.go:363-396 | a task that compiles carries the scanning's key and JobInfo, the scanning job type, the scanning's timeout and its outputs completed with the two scanning outputs |
| JobScanning.ToJobTask | pkg/microservice/aslan/core/workflow/service/workflow/job/job_scanning.go:345-555 | each lookup fails with its own message, in the source's order (scanning, base image, registry listing, cluster, cache storage, SonarQube integration), and otherwise the job task is built; once the cache storage lookup has passed, the scanning's repositories have been rendered in place (RenderedScanning), even when the SonarQube lookup then fails |
| JobScanning.NewJobTask | pkg/microservice/aslan/core/workflow/service/workflow/job/job_scanning.go:363-396 | the job task's name, key, JobInfo, timeout and outputs are filled in as ScanningTask describes |
| JobScanning.DeployTargetsOfMembers | pkg/microservice/aslan/core/workflow/service/workflow/job/job_scanning.go:765-778 | a deploy job offers exactly the (service, module) pairs of its services |
| JobScanning.FirstTargets | pkg/microservice/aslan/core/workflow/service/workflow/job/job_scanning.go:734-788 | the targets come from the first job with the referenced name whose kind offers targets; same-named jobs of other kinds are skipped |
| JobScanning.FirstTargetsInStagesFlat | pkg/microservice/aslan/core/workflow/service/workflow/job/job_scanning.go:734-735 | searching stage by stage finds what searching all jobs in order finds |
| JobScanning.OriginReferredTargetsFirst | pkg/microservice/aslan/core/workflow/service/workflow/job/job_scanning.go:732-791 | the upstream targets are those of the first matching job in stage order, and the lookup fails with "build job … not found" when none matches |
| JobScanning.CollectBuildTargets | pkg/microservice/aslan/core/workflow/service/workflow/job/job_scanning.go:744-749 | a build job yields one target per service module it builds, in order |
| JobScanning.CollectDistributeTargets | pkg/microservice/aslan/core/workflow/service/workflow/job/job_scanning.go:757-762 | a distribute job yields one target per distributed image, in order |
| JobScanning.CollectDeployTargets | pkg/microservice/aslan/core/workflow/service/workflow/job/job_scanning.go:770-777 | a deploy job yields one target per service and module, in order |
| JobScanning.JobTargets | pkg/microservice/aslan/core/workflow/service/workflow/job/job_scanning.go:739-787 | the targets a job offers are chosen by its kind, and the scanning job's are its own targets |
| JobScanning.GetOriginReferedJobTargets | pkg/microservice/aslan/core/workflow/service/workflow/job/job_scanning.go:732-791 | the walk over the stages returns what OriginReferredTargets describes |
| JobScanning.TargetScanningsMembers | pkg/microservice/aslan/core/workflow/service/workflow/job/job_scanning.go:292-295 | the scannings run for a target are exactly the configured ones with its service and module |
| JobScanning.ScanPairsMembers | pkg/microservice/aslan/core/workflow/service/workflow/job/job_scanning.go:290-303 | the compiled pairs are exactly the configured scannings of the selected targets |
| JobScanning.ScanPairsAppend | pkg/microservice/aslan/core/workflow/service/workflow/job/job_scanning.go:291-302 | the pairs go target by target, so the pairs of two target lists concatenate |
| JobScanning.ScanningToJobsNormal | pkg/microservice/aslan/core/workflow/service/workflow/job/job_scanning.go:266-305 | a plain scanning job yields one task per scanning, in order, and keeps each scanning with its repositories rendered by its compilation; or it yields no task, keeps its old spec and reports the error of the first scanning that fails |
| JobScanning.ScanningToJobsService | pkg/microservice/aslan/core/workflow/service/workflow/job/job_scanning.go:276-306 | a service scanning job takes its upstream job's targets when it quotes one, then yields one task per configured scanning of each target, target by target, and keeps the configured scannings as the compilations rendered them (RenderedForTargets); on an error the job keeps its old spec |
| JobScanning.NormalTasks | pkg/microservice/aslan/core/workflow/service/workflow/job/job_scanning.go:267-273 | the loop compiles the plain scannings in order and stops at the first failure; when none fails, it returns each scanning as its compilation rendered it |
| JobScanning.TargetTasks | pkg/microservice/aslan/core/workflow/service/workflow/job/job_scanning.go:292-301 | the inner loop compiles one target's scannings in order and stops at the first failure; when none fails, it returns the configured scannings with those of this target rendered once more |
| JobScanning.ServiceTasks | pkg/microservice/aslan/core/workflow/service/workflow/job/job_scanning.go:291-302 | the nested loops compile every pair in target-major order and stop at the first failure; each compilation starts from the repositories the earlier ones left, and when none fails the loops return the configured scannings as RenderedForTargets describes |
| JobScanning.CompileIfSelected | pkg/microservice/aslan/core/workflow/service/workflow/job/job_scanning.go:292-301 | a configured scanning is compiled only for a target that selects it (same service and module), and is then rendered |
| JobScanning.RenderedScanning | pkg/microservice/aslan/core/workflow/service/workflow/job/job_scanning.go:397-503 | compiling a scanning renders its repositories against the saved scanning's repositories with the task's variables; nothing else about the scanning changes, each repository keeps its name and owner, and one that no saved repository names is untouched |
| JobScanning.RenderedTimes | pkg/microservice/aslan/core/workflow/service/workflow/job/job_scanning.go:290-303 | a scanning compiled several times changes only in its repositories |
| JobScanning.RenderedForTargetsCount | pkg/microservice/aslan/core/workflow/service/workflow/job/job_scanning.go:290-303 | each configured scanning is rendered once for every target that selects it, each time from the previous state; one that no target selects is unchanged |
| JobScanning.ScanningTaskPassesLookups | pkg/microservice/aslan/core/workflow/service/workflow/job/job_scanning.go:345-450 | a scanning compiles only when every lookup before its git step has succeeded |
| JobScanning.PresetScanning | pkg/microservice/aslan/core/workflow/service/workflow/job/job_scanning.go:59-70 | a scanning found in the store takes the saved repositories with its own branch settings and the saved variables with its own values; one not found is kept as it is |
| JobScanning.ServiceModuleKeyInjective | pkg/microservice/aslan/core/workflow/service/workflow/job/job_scanning.go:82 | the "service/module" key identifies the service module when service names lack '/' |
| JobScanning.PresetSpec | pkg/microservice/aslan/core/workflow/service/workflow/job/job_scanning.go:52-106 | presetting changes only the scannings (for a plain job), the service scannings and targets (for a service job) and the quoted job's name (for a FromJob job) |
| JobScanning.PresetTargetsSelected | pkg/microservice/aslan/core/workflow/service/workflow/job/job_scanning.go:95-101 | the kept targets are, in order, exactly those whose service module some service scanning is configured for |
| JobScanning.PresetAllScannings | pkg/microservice/aslan/core/workflow/service/workflow/job/job_scanning.go:59-71 | the loop presets every plain scanning |
| JobScanning.PresetOne | pkg/microservice/aslan/core/workflow/service/workflow/job/job_scanning.go:59-70 | one scanning is preset exactly when the store has it |
| JobScanning.PresetAllServiceScannings | pkg/microservice/aslan/core/workflow/service/workflow/job/job_scanning.go:81-94 | the loop presets every service scanning and records every configured service module |
| JobScanning.FilterConfiguredTargets | pkg/microservice/aslan/core/workflow/service/workflow/job/job_scanning.go:95-100 | the loop keeps, in order, the targets whose service module is configured |
| JobScanning.ScanningJob.SetPreset | pkg/microservice/aslan/core/workflow/service/workflow/job/job_scanning.go:52-106 | the job's spec becomes the preset spec and nothing else changes |
| JobScanning.ScanningJob.ClearSelectionField | pkg/microservice/aslan/core/workflow/service/workflow/job/job_scanning.go:112-120 | only the selected targets are emptied |
| JobScanning.FirstNamed | pkg/microservice/aslan/core/workflow/service/workflow/job/job_scanning.go:217-222 | the argument used is the first with the scanning's name |
| JobScanning.MergeScanning | pkg/microservice/aslan/core/workflow/service/workflow/job/job_scanning.go:219-220 | merging changes only a scanning's repositories (its own, with the argument's branch settings) and variables (its own keys) |
| JobScanning.FirstSameService | pkg/microservice/aslan/core/workflow/service/workflow/job/job_scanning.go:230-235 | the argument used for a service scanning is the first with its scanning name and service name |
| JobScanning.MergedScannings | pkg/microservice/aslan/core/workflow/service/workflow/job/job_scanning.go:215-225 | every stored scanning is kept in order; one without an argument of its name is unchanged |
| JobScanning.MergedScanningSpecIdempotent | pkg/microservice/aslan/core/workflow/service/workflow/job/job_scanning.go:203-243 | merging the same arguments twice equals merging them once |
| JobScanning.MergeScanningArgs | pkg/microservice/aslan/core/workflow/service/workflow/job/job_scanning.go:216-224 | the loop merges each plain scanning with the first argument of its name |
| JobScanning.MergeServiceScanningArgs | pkg/microservice/aslan/core/workflow/service/workflow/job/job_scanning.go:229-237 | the loop merges each service scanning with the first argument of its scanning and service name |
| JobScanning.ScanningJob.MergeArgs | pkg/microservice/aslan/core/workflow/service/workflow/job/job_scanning.go:203-243 | a job of another name or kind is untouched; otherwise plain scannings merge by name, and a service job takes the argument's targets and merges by scanning and service name |
| JobScanning.RefreshLatest | pkg/microservice/aslan/core/workflow/service/workflow/job/job_scanning.go:170-171 | a latest scanning takes its saved repositories and variables |
| JobScanning.MergeLatest | pkg/microservice/aslan/core/workflow/service/workflow/job/job_scanning.go:172-173 | a stored scanning takes the refreshed latest repositories and variables, keeping the user's choices |
| JobScanning.LatestMergesFrom | pkg/microservice/aslan/core/workflow/service/workflow/job/job_scanning.go:158-176 | each merge comes from a stored scanning with the latest scanning's name and project, and every such stored scanning with a saved configuration yields one |
| JobScanning.UpdatedScanningsFrom | pkg/microservice/aslan/core/workflow/service/workflow/job/job_scanning.go:155-180 | after the update every scanning is a stored one merged onto a matching latest one, and every stored scanning a latest one with a saved configuration matches is there |
| JobScanning.LatestMergesCarryChoices | pkg/microservice/aslan/core/workflow/service/workflow/job/job_scanning.go:170-172 | of two stored scannings matching one latest scanning, the second is refreshed from the saved repositories carrying the first one's merged choices |
| JobScanning.MergeWithLatest | pkg/microservice/aslan/core/workflow/service/workflow/job/job_scanning.go:158-177 | the inner loop merges the stored scannings matching one latest scanning, each match starting from the repositories the previous match left |
| JobScanning.MergeLatestScannings | pkg/microservice/aslan/core/workflow/service/workflow/job/job_scanning.go:157-178 | the outer loop visits the latest scannings in order |
| JobScanning.ScanningJob.UpdateWithLatestSetting | pkg/microservice/aslan/core/workflow/service/workflow/job/job_scanning.go:122-183 | a missing job in the latest workflow is an error that leaves the spec unchanged; otherwise only the plain scannings are replaced by the merged ones |
| JobScanning.ScanningJob.ToJobs | pkg/microservice/aslan/core/workflow/service/workflow/job/job_scanning.go:257-307 | the job's tasks, error and new spec are those ScanningToJobs describes, the new spec holding the scannings as their compilations rendered them |
| JobDistributeImage.TaskTimeout | pkg/microservice/aslan/core/workflow/service/workflow/job/job_distribute_image.go:480-485 | a task's timeout is never zero: zero becomes the default of 10, anything else is kept |
| JobDistributeImage.DistributeImageIsBuildImage | pkg/microservice/aslan/core/workflow/service/workflow/job/job_distribute_image.go:456-464 | a distributed image "addr/[ns/]name:tag" is named as the build job names the image it builds |
| JobDistributeImage.RawImageWithScheme | pkg/microservice/aslan/core/workflow/service/workflow/job/job_distribute_image.go:457-460 | a scheme written before the registry address ends up before the whole reference |
| JobDistributeImage.DistributeImageDropsScheme | pkg/microservice/aslan/core/workflow/service/workflow/job/job_distribute_image.go:456-464 | an address written with "http://" or "https://" names the same image as the bare address |
| JobDistributeImage.LintError | pkg/microservice/aslan/core/workflow/service/workflow/job/job_distribute_image.go:330-344 | a FromJob job passes exactly when the quoted job has a strictly smaller rank than this job; any other source always passes; the error names both jobs |
| JobDistributeImage.ImageDistributeJob.LintJob | pkg/microservice/aslan/core/workflow/service/workflow/job/job_distribute_image.go:330-344 | the job's lint result is LintError |
| JobDistributeImage.LatestDistributeSpec | pkg/microservice/aslan/core/workflow/service/workflow/job/job_distribute_image.go:193-211 | the latest source, quoted job or source registry (by source), target registry, timeout, cluster, strategy and tag rule are adopted; the saved targets stay, except that a FromJob job now Runtime loses them |
| JobDistributeImage.LatestDistributeSpecIdempotent | pkg/microservice/aslan/core/workflow/service/workflow/job/job_distribute_image.go:193-211 | updating twice from the same latest spec equals updating once |
| JobDistributeImage.ImageDistributeJob.UpdateWithLatestSetting | pkg/microservice/aslan/core/workflow/service/workflow/job/job_distribute_image.go:160-214 | a missing job in the latest workflow is an error that leaves the spec unchanged; otherwise the spec becomes LatestDistributeSpec |
| JobDistributeImage.ImageDistributeJob.ClearSelectionField | pkg/microservice/aslan/core/workflow/service/workflow/job/job_distribute_image.go:133-142 | only the targets are emptied |
| JobDistributeImage.ImageDistributeJob.MergeArgs | pkg/microservice/aslan/core/workflow/service/workflow/job/job_distribute_image.go:144-158 | a job of another name or kind is untouched; otherwise it takes the argument's targets and nothing else |
| JobDistributeImage.FirstNamedJob | pkg/microservice/aslan/core/workflow/service/workflow/job/job_distribute_image.go:348-352 | the job found is the first with the name, and none is found only when no job has it |
| JobDistributeImage.QuoteBuildJobSpec | pkg/microservice/aslan/core/workflow/service/workflow/job/job_distribute_image.go:346-363 | the quoted spec belongs to a build job of the name; no job of the name gives "reference job … not found", and a first job of the name that is not a build gives "cannot reference job … that is not a build" |
| JobDistributeImage.FindInStage | pkg/microservice/aslan/core/workflow/service/workflow/job/job_distribute_image.go:349-360 | searching one stage, then the rest, finds the first job of the name overall |
| JobDistributeImage.GetQuoteBuildJobSpec | pkg/microservice/aslan/core/workflow/service/workflow/job/job_distribute_image.go:346-363 | the stage walk returns what QuoteBuildJobSpec describes |
| JobDistributeImage.ReferredOf | pkg/microservice/aslan/core/workflow/service/workflow/job/job_distribute_image.go:375-433 | build, distribute and deploy jobs offer service modules and a registry, other kinds offer nothing, and a deploy job of an unknown environment is an error |
| JobDistributeImage.FirstReferred | pkg/microservice/aslan/core/workflow/service/workflow/job/job_distribute_image.go:369-435 | the modules come from the first job of the name whose kind offers them; same-named jobs of other kinds are skipped |
| JobDistributeImage.QuotedTargets | pkg/microservice/aslan/core/workflow/service/workflow/job/job_distribute_image.go:442-447 | every quoted module, in order, takes the quoted job's IMAGE output as its source image |
| JobDistributeImage.QuotedSourceImagesDistinct | pkg/microservice/aslan/core/workflow/service/workflow/job/job_distribute_image.go:444 | distinct quoted modules whose service names lack '.' read distinct source images |
| JobDistributeImage.ReferredTargetsFound | pkg/microservice/aslan/core/workflow/service/workflow/job/job_distribute_image.go:365-450 | a successful lookup returns what the first offering job of the name offers, each module with its source image |
| JobDistributeImage.ReferredTargetsMissing | pkg/microservice/aslan/core/workflow/service/workflow/job/job_distribute_image.go:437-439 | the lookup reports the job missing exactly when no job of the name offers service modules |
| JobDistributeImage.JobReferred | pkg/microservice/aslan/core/workflow/service/workflow/job/job_distribute_image.go:375-433 | the loops collect what ReferredOf describes for one job |
| JobDistributeImage.ReferredInStage | pkg/microservice/aslan/core/workflow/service/workflow/job/job_distribute_image.go:371-434 | searching one stage, then the rest, finds the first offering job overall |
| JobDistributeImage.AttachSourceImages | pkg/microservice/aslan/core/workflow/service/workflow/job/job_distribute_image.go:442-447 | the loop gives each module its source image |
| JobDistributeImage.GetOriginReferredJobTargets | pkg/microservice/aslan/core/workflow/service/workflow/job/job_distribute_image.go:365-450 | the stage walk with its labelled break returns what ReferredTargets describes |
| JobDistributeImage.RuleTagAsWrittenKeepsPreBuild | pkg/microservice/aslan/core/workflow/service/workflow/job/job_distribute_image.go:252-255 | as written, a rule that is only the preBuild placeholder comes out unchanged |
| JobDistributeImage.RuleTagAsWrittenCounterexample | pkg/microservice/aslan/core/workflow/service/workflow/job/job_distribute_image.go:252-255 | as written, the quoted build's tag never reaches a rule "{{.job.preBuild.imageTag}}" |
| JobDistributeImage.RuleTagResolvesPreBuild | pkg/microservice/aslan/core/workflow/service/workflow/job/job_distribute_image.go:252-253 | corrected, the preBuild placeholder resolves to the quoted job's tag output |
| JobDistributeImage.RuleTagResolvesPreJob | pkg/microservice/aslan/core/workflow/service/workflow/job/job_distribute_image.go:254-255 | the preJob placeholder resolves to the quoted job's tag output |
| JobDistributeImage.RuleTagAgreesWithoutPreBuild | pkg/microservice/aslan/core/workflow/service/workflow/job/job_distribute_image.go:251-256 | the corrected rule and the rule as written give the same tag for every rule in which the preBuild placeholder does not occur |
| JobDistributeImage.QuotedImageTagNoPlaceholder | pkg/microservice/aslan/core/workflow/service/workflow/job/job_distribute_image.go:253-255 | the substituted tag output cannot itself contain the preJob placeholder, so the two substitutions do not interfere |
| JobDistributeImage.TagMap | pkg/microservice/aslan/core/workflow/service/workflow/job/job_distribute_image.go:245-248 | every saved target is filed under its "service/module" key, and each key holds a saved target with that key |
| JobDistributeImage.TagMapLastWins | pkg/microservice/aslan/core/workflow/service/workflow/job/job_distribute_image.go:245-248 | of several saved targets with one key, the last is filed |
| JobDistributeImage.BuildTagMap | pkg/microservice/aslan/core/workflow/service/workflow/job/job_distribute_image.go:245-248 | the loop builds the tag map |
| JobDistributeImage.TaggedTargets | pkg/microservice/aslan/core/workflow/service/workflow/job/job_distribute_image.go:250-261 | each quoted target is tagged on its own, in order, with the corrected tag rule (see Findings) |
| JobDistributeImage.TaggedTargetFromSaved | pkg/microservice/aslan/core/workflow/service/workflow/job/job_distribute_image.go:250-261 | with a rule, a quoted target takes the rule's tag under the corrected tag rule (see Findings) and always updates; without one it takes the saved tag and update flag of its module, or none |
| JobDistributeImage.TagQuotedTarget | pkg/microservice/aslan/core/workflow/service/workflow/job/job_distribute_image.go:251-260 | one quoted target is tagged as TaggedTarget describes, with the corrected tag rule (see Findings) |
| JobDistributeImage.TagQuotedTargets | pkg/microservice/aslan/core/workflow/service/workflow/job/job_distribute_image.go:250-261 | the loop tags every quoted target, with the corrected tag rule (see Findings) |
| JobDistributeImage.RuntimeTargets | pkg/microservice/aslan/core/workflow/service/workflow/job/job_distribute_image.go:265-276 | each runtime target is settled on its own, in order |
| JobDistributeImage.SettleRuntimeTarget | pkg/microservice/aslan/core/workflow/service/workflow/job/job_distribute_image.go:266-275 | a runtime target's source image uses its image name, or its module when the name is empty; a rule replaces the input tag placeholder with the source tag; the tag is always updated |
| JobDistributeImage.SetRuntimeTargets | pkg/microservice/aslan/core/workflow/service/workflow/job/job_distribute_image.go:265-276 | the loop settles every runtime target |
| JobDistributeImage.PublishedTargets | pkg/microservice/aslan/core/workflow/service/workflow/job/job_distribute_image.go:283-287 | each target's image becomes this job's IMAGE output for its module; nothing else changes |
| JobDistributeImage.StepTargets | pkg/microservice/aslan/core/workflow/service/workflow/job/job_distribute_image.go:288-294 | the step receives each target's source image, module, tag and update flag, in order |
| JobDistributeImage.PublishTargets | pkg/microservice/aslan/core/workflow/service/workflow/job/job_distribute_image.go:283-295 | the loop publishes each target and tells the step about it |
| JobDistributeImage.DistributeToJobsRegistryMissing | pkg/microservice/aslan/core/workflow/service/workflow/job/job_distribute_image.go:225-232 | an unknown source or target registry compiles to nothing and keeps the spec |
| JobDistributeImage.DistributeToJobsTask | pkg/microservice/aslan/core/workflow/service/workflow/job/job_distribute_image.go:279-327 | a job that compiles yields one task named and keyed by the job, with a nonzero timeout and one distribute step carrying each new target in order |
| JobDistributeImage.DistributeToJobsFromJob | pkg/microservice/aslan/core/workflow/service/workflow/job/job_distribute_image.go:234-263 | a FromJob job distributes exactly the quoted modules, in order, from the quoted job's images and registry, tagged by the corrected rule (see Findings) or the saved targets |
| JobDistributeImage.DistributeToJobsRuntime | pkg/microservice/aslan/core/workflow/service/workflow/job/job_distribute_image.go:264-277 | a Runtime job distributes its saved targets, in order, from their images in the source registry, with the rule's tag when there is a rule, always updating |
| JobDistributeImage.ImageDistributeJob.ToJobs | pkg/microservice/aslan/core/workflow/service/workflow/job/job_distribute_image.go:216-328 | the job's tasks, error and new spec are those DistributeToJobs describes, FromJob tags under the corrected tag rule (see Findings) |
| JobDistributeImage.DistributeOutputs | pkg/microservice/aslan/core/workflow/service/workflow/job/job_distribute_image.go:487-498 | one IMAGE output key per target, in order |
| JobDistributeImage.DistributeOutputsPublished | pkg/microservice/aslan/core/workflow/service/workflow/job/job_distribute_image.go:283-287 | after compiling, the declared outputs are exactly the images the targets publish |
| JobDistributeImage.ImageDistributeJob.GetOutPuts | pkg/microservice/aslan/core/workflow/service/workflow/job/job_distribute_image.go:487-498 | the method returns DistributeOutputs |
| StepDistributeImage.AsDistributeStep | pkg/microservice/aslan/core/common/service/workflowcontroller/stepcontroller/step_distribute_image.go:41-49 | the controller reads the step's spec as a distribute spec, unchanged when it already is one |
| StepDistributeImage.DistributeImageCtl.constructor | pkg/microservice/aslan/core/common/service/workflowcontroller/stepcontroller/step_distribute_image.go:40-51 | the controller and the step share the distribute spec from then on |
| StepDistributeImage.FirstEmptySource | pkg/microservice/aslan/core/common/service/workflowcontroller/stepcontroller/step_distribute_image.go:54-57 | the run stops at the first target without a source image, and every target before it has one |
| StepDistributeImage.FirstEmptySourceAt | pkg/microservice/aslan/core/common/service/workflowcontroller/stepcontroller/step_distribute_image.go:54-57 | the first target without a source image is the first index at which one is missing |
| StepDistributeImage.DistributeImageCtl.PreRun | pkg/microservice/aslan/core/common/service/workflowcontroller/stepcontroller/step_distribute_image.go:53-63 | the targets before the first one with an empty source image are named in the target registry in place, the rest are untouched; the run fails with "source image is empty" exactly when such a target exists |
| StepDistributeImage.DistributeImageCtl.AfterRun | pkg/microservice/aslan/core/common/service/workflowcontroller/stepcontroller/step_distribute_image.go:65-71 | the run always succeeds; the global context becomes the old context with each target's image under the job's IMAGE output for its module, and the targets are unchanged |
| StepDistributeImage.PublishedContextKeys | pkg/microservice/aslan/core/common/service/workflowcontroller/stepcontroller/step_distribute_image.go:66-69 | publishing keeps every old key, adds every target's key, and adds no other key |
| StepDistributeImage.PublishedContextOthers | pkg/microservice/aslan/core/common/service/workflowcontroller/stepcontroller/step_distribute_image.go:66-69 | a key no target publishes keeps its value |
| StepDistributeImage.PublishedContextLastWins | pkg/microservice/aslan/core/common/service/workflowcontroller/stepcontroller/step_distribute_image.go:66-69 | of two targets with one key, the later one's image is published |
| StepDistributeImage.StepKeysAreJobOutputs | pkg/microservice/aslan/core/common/service/workflowcontroller/stepcontroller/step_distribute_image.go:67-68 | the keys the step publishes are exactly the outputs the compiled distribute job declares, in the same order |
| JobSql.SplitAfter | pkg/microservice/aslan/core/common/service/workflowcontroller/jobcontroller/job_sql.go:96 | cutting after every ';' always gives at least one piece |
| JobSql.SplitAfterJoins | pkg/microservice/aslan/core/common/service/workflowcontroller/jobcontroller/job_sql.go:96 | the pieces joined give back the SQL text |
| JobSql.SplitAfterCount | pkg/microservice/aslan/core/common/service/workflowcontroller/jobcontroller/job_sql.go:96 | there is one more piece than there are ';' |
| JobSql.SplitAfterCuts | pkg/microservice/aslan/core/common/service/workflowcontroller/jobcontroller/job_sql.go:96 | every piece but the last ends with its only ';', and the last has none |
| JobSql.SplitAfterTrailingSemicolon | pkg/microservice/aslan/core/common/service/workflowcontroller/jobcontroller/job_sql.go:96 | "a;" is cut into "a;" and an empty last piece |
| JobSql.SplitAfterBlankTail | pkg/microservice/aslan/core/common/service/workflowcontroller/jobcontroller/job_sql.go:96 | "a; " is cut into "a;" and " " |
| JobSql.StatementsRecorded | pkg/microservice/aslan/core/common/service/workflowcontroller/jobcontroller/job_sql.go:96-108 | the recorded statements are the trimmed non-empty pieces, in order and not yet run; every non-empty piece is recorded, even one that trims to nothing |
| JobSql.StatementsOfPieceAndEmpty | pkg/microservice/aslan/core/common/service/workflowcontroller/jobcontroller/job_sql.go:97-100 | an empty piece records nothing |
| JobSql.StatementsOfPieces | pkg/microservice/aslan/core/common/service/workflowcontroller/jobcontroller/job_sql.go:97-108 | two non-empty pieces record two statements, in order |
| JobSql.StatementsSkipEmptyPiece | pkg/microservice/aslan/core/common/service/workflowcontroller/jobcontroller/job_sql.go:96-108 | "a;" records the single statement "a;" |
| JobSql.StatementsKeepBlankPiece | pkg/microservice/aslan/core/common/service/workflowcontroller/jobcontroller/job_sql.go:96-108 | "a; " records "a;" and then the empty statement |
| JobSql.FirstFailure | pkg/microservice/aslan/core/common/service/workflowcontroller/jobcontroller/job_sql.go:110-125 | the run stops at the first statement whose execution or row count fails, and every statement before it succeeded |
| JobSql.FirstFailureAt | pkg/microservice/aslan/core/common/service/workflowcontroller/jobcontroller/job_sql.go:110-125 | the first failure is the position that fails after only successes |
| JobSql.RunStatementsSucceeds | pkg/microservice/aslan/core/common/service/workflowcontroller/jobcontroller/job_sql.go:110-127 | a run succeeds exactly when no statement fails, and then every statement is Success; statement texts never change |
| JobSql.RunStatementsStops | pkg/microservice/aslan/core/common/service/workflowcontroller/jobcontroller/job_sql.go:110-125 | a failing run returns the first failing statement's error; the statements before it are Success, it is Failed exactly when its execution errored (a row-count error leaves it Success), and the later ones are untouched |
| JobSql.ExecStatementsKeepsOrder | pkg/microservice/aslan/core/common/service/workflowcontroller/jobcontroller/job_sql.go:87-128 | a connection error leaves the results alone; otherwise the existing results stay in front and the job's statements follow in order |
| JobSql.SQLJobCtl.LogError | pkg/microservice/aslan/core/common/service/workflowcontroller/jobcontroller/job_sql.go:67 | the shared error logger fails the job with the message and changes nothing else |
| JobSql.SQLJobCtl.ExecMySQLStatement | pkg/microservice/aslan/core/common/service/workflowcontroller/jobcontroller/job_sql.go:87-128 | the statements are recorded after the existing results and all are run as ExecStatements describes |
| JobSql.SQLJobCtl.RunAll | pkg/microservice/aslan/core/common/service/workflowcontroller/jobcontroller/job_sql.go:110-127 | the loop runs the recorded statements as RunStatements describes |
| JobSql.SQLJobCtl.Run | pkg/microservice/aslan/core/common/service/workflowcontroller/jobcontroller/job_sql.go:61-85 | Running is reported first; the job passes exactly on a MySQL or MariaDB instance whose statements all succeed, and otherwise fails with the lookup, type or execution error |
| JobSql.SQLJobCtl.SavedInfo | pkg/microservice/aslan/core/common/service/workflowcontroller/jobcontroller/job_sql.go:130-142 | the saved duration is the end time less the start time |
| Cronjob.RecordFor | pkg/microservice/aslan/core/workflow/service/workflow/cronjob.go:87-105 | every written record carries the parent's name and type, is enabled, keeps the item's ID, and has a product only for a test's cron jobs |
| Cronjob.Without | pkg/microservice/aslan/core/workflow/service/workflow/cronjob.go:129-131 | deleting removes exactly the listed IDs and keeps every other record |
| Cronjob.ApplyItems | pkg/microservice/aslan/core/workflow/service/workflow/cronjob.go:85-123 | writing keeps one item per submitted item, the ones not reached after an error included |
| Cronjob.ApplyItemFresh | pkg/microservice/aslan/core/workflow/service/workflow/cronjob.go:101-122 | one write keeps new IDs fresh, keeps an item that has an ID, and writes only records for the parent |
| Cronjob.ApplyItemsFresh | pkg/microservice/aslan/core/workflow/service/workflow/cronjob.go:85-123 | writing all items keeps IDs fresh, keeps every item that has an ID, and every record it changes or adds is written for the parent |
| Cronjob.ApplyItemsCreates | pkg/microservice/aslan/core/workflow/service/workflow/cronjob.go:112-122 | when no store call fails, every item without an ID gets a new ID, above the old ones and increasing along the items, and its record is stored under that ID and written back into the item |
| Cronjob.ApplyItemCreatesNew | pkg/microservice/aslan/core/workflow/service/workflow/cronjob.go:112-121 | a successful create gives the item the store's next ID |
| Cronjob.ApplyItemKeys | pkg/microservice/aslan/core/workflow/service/workflow/cronjob.go:101-122 | a successful write adds the new ID of an item without one, and no other ID |
| Cronjob.ApplyItemsKeys | pkg/microservice/aslan/core/workflow/service/workflow/cronjob.go:85-123 | when no store call fails, the store holds exactly the old IDs and the created ones |
| Cronjob.ApplyItemsRest | pkg/microservice/aslan/core/workflow/service/workflow/cronjob.go:106-120 | once a store error has stopped the writing, the remaining items are left as they were |
| Cronjob.ReconcileDeletes | pkg/microservice/aslan/core/workflow/service/workflow/cronjob.go:69-138 | reconciliation succeeds exactly when list, every write and delete succeed; it then deletes exactly the parent's stored cron jobs no item names, keeps every other old ID and every created one, and reports the deleted IDs; a failed one reports none |
| Cronjob.ReconcileScenario | pkg/microservice/aslan/core/workflow/service/workflow/cronjob.go:69-138 | stored A and B with submitted A and a new item: A is updated, the new item is created under the next ID, and only B is deleted |
| Cronjob.CronjobColl.List | pkg/microservice/aslan/core/workflow/service/workflow/cronjob.go:72-80 | listing returns the IDs of the parent's cron jobs, or the store's error |
| Cronjob.CronjobColl.Update | pkg/microservice/aslan/core/workflow/service/workflow/cronjob.go:106 | an update replaces the record with the job's ID, if there is one, and creates nothing |
| Cronjob.CronjobColl.Create | pkg/microservice/aslan/core/workflow/service/workflow/cronjob.go:116 | a create stores the job under the next ID and returns that ID |
| Cronjob.CronjobColl.Delete | pkg/microservice/aslan/core/workflow/service/workflow/cronjob.go:129-131 | a delete removes exactly the listed IDs |
| Cronjob.WriteItems | pkg/microservice/aslan/core/workflow/service/workflow/cronjob.go:85-123 | the loop writes the items as ApplyItems describes and writes the created IDs back into the schedule |
| Cronjob.UpdateCronjob | pkg/microservice/aslan/core/workflow/service/workflow/cronjob.go:69-138 | the store, the schedule's items and the error are those of the reconciliation, and the delete list names each deleted ID once |
| Cronjob.MsgQueue.Publish | pkg/microservice/aslan/core/workflow/service/workflow/cronjob.go:57-60 | publishing appends the message unless the queue fails |
| Cronjob.HandleCronjob | pkg/microservice/aslan/core/workflow/service/workflow/cronjob.go:32-66 | a workflow without a schedule is untouched; otherwise the schedule is detached and takes the workflow's switch; an enabled schedule is reconciled and published with its deletions and items, a disabled one is published as disabled and no cron job is touched |
| Cronjob.ScenarioApplied | pkg/microservice/aslan/core/workflow/service/workflow/cronjob.go:101-122 | an existing item is updated in place and a new one is created under the next free ID, which it then carries |
| WorkflowTask.FiringIndices | pkg/microservice/aslan/core/common/service/instantmessage/workflow_task.go:122-127 | exactly the controls that fire are selected, in order |
| WorkflowTask.ComputeStatusChanged | pkg/microservice/aslan/core/common/service/instantmessage/workflow_task.go:109-121 | the successive assignments compute StatusChanged |
| WorkflowTask.StatusChangedCases | pkg/microservice/aslan/core/common/service/instantmessage/workflow_task.go:109-121 | the status counts as changed exactly when the workflow task is not just created and either no previous task was found or the previous one had another status while this one is not running |
| WorkflowTask.FiresOnlyOnWantedStatusOrChange | pkg/microservice/aslan/core/common/service/instantmessage/workflow_task.go:122-127 | a control that does not want the status fires only when it is enabled, asked for changes, and the status changed |
| WorkflowTask.FirstCreator | pkg/microservice/aslan/core/common/service/instantmessage/workflow_task.go:137-138 | the creator entry resolved is the first of type task-creator |
| WorkflowTask.CreatorResolution | pkg/microservice/aslan/core/common/service/instantmessage/workflow_task.go:75-93 | resolving replaces the first task-creator entry by the creator's plain mail user when the creator resolves and leaves every other entry alone; for approvals the users are kept and exactly one entry is appended in that case |
| WorkflowTask.ResolveCreator | pkg/microservice/aslan/core/common/service/instantmessage/workflow_task.go:135-150 | the loop resolves or appends the creator as CreatorResolution describes |
| WorkflowTask.NotifyFiring | pkg/microservice/aslan/core/common/service/instantmessage/workflow_task.go:122-157 | exactly the controls that fire are notified, in order and each with its recipients, unless one's content fails; the run then stops there with that error |
| WorkflowTask.NotifyStopped | pkg/microservice/aslan/core/common/service/instantmessage/workflow_task.go:128-133 | once the run has stopped, later controls change nothing |
| WorkflowTask.SendWorkflowTaskNotifications | pkg/microservice/aslan/core/common/service/instantmessage/workflow_task.go:102-159 | nothing is sent for a task without notify controls or without a positive ID; otherwise the firing controls are notified in order until a content error |
| WorkflowTask.SendOne | pkg/microservice/aslan/core/common/service/instantmessage/workflow_task.go:128-155 | one firing control gets its notification with its recipients |
| WorkflowTask.SendFired | pkg/microservice/aslan/core/common/service/instantmessage/workflow_task.go:122-157 | the loop notifies as Notify describes |
| WorkflowTask.ApprovalFiresAsWaitingApprove | pkg/microservice/aslan/core/common/service/instantmessage/workflow_task.go:60-67 | an approval goes to a control exactly when it is enabled and wants WaitingApprove |
| WorkflowTask.SendWorkflowTaskApproveNotifications | pkg/microservice/aslan/core/common/service/instantmessage/workflow_task.go:47-100 | a failed workflow or task lookup is an error and sends nothing; otherwise the controls wanting WaitingApprove are notified in order, the creator added to the mail users |
| WorkflowTask.StatusTextsAgree | pkg/microservice/aslan/core/common/service/instantmessage/workflow_task.go:631-644 | the task and job status tables agree except on Created (a start in the task-level table, a failure in the job table) and NotRun (a failure for a task, not run for a job); a status neither table names reads as a failure |
| WorkflowTask.IconMatchesColor | pkg/microservice/aslan/core/common/service/instantmessage/workflow_task.go:621-652 | a thumbs-up exactly with the info colour (passed or created), a cross exactly with the warning colour (failed), a warning sign otherwise, in comment colour |
| WorkflowTask.JobTypeLabelsDistinct | pkg/microservice/aslan/core/common/service/instantmessage/workflow_task.go:696-745 | every known job type has a label of its own |
| WorkflowTask.PRLinkKnown | pkg/microservice/aslan/core/common/service/instantmessage/workflow_task.go:385-401 | GitHub, Gitee, GitLab and Gerrit always yield a link |
| WorkflowTask.PREntriesKnownProvider | pkg/microservice/aslan/core/common/service/instantmessage/workflow_task.go:409-414 | with a known provider every pull request gets one entry, in order |
| WorkflowTask.PREntriesUnknownProvider | pkg/microservice/aslan/core/common/service/instantmessage/workflow_task.go:402-414 | an unknown provider yields no pull-request entries |
| WorkflowTask.CollectPREntries | pkg/microservice/aslan/core/common/service/instantmessage/workflow_task.go:409-414 | the loop builds the entries, skipping those without a link |
| WorkflowTask.Insert | pkg/microservice/aslan/core/common/service/instantmessage/workflow_task.go:408 | inserting adds exactly the one number |
| WorkflowTask.SortInts | pkg/microservice/aslan/core/common/service/instantmessage/workflow_task.go:408 | sorting keeps the same numbers |
| WorkflowTask.InsertAscending | pkg/microservice/aslan/core/common/service/instantmessage/workflow_task.go:408 | inserting into an ascending list keeps it ascending |
| WorkflowTask.SortIntsSorts | pkg/microservice/aslan/core/common/service/instantmessage/workflow_task.go:408 | the pull requests come out ascending and are the same numbers |
| WorkflowTask.ShortCommit | pkg/microservice/aslan/core/common/service/instantmessage/workflow_task.go:381-383 | a commit ID longer than 8 is cut to its first 8 characters; otherwise the previous value is kept |
| WorkflowTask.LastSummarised | pkg/microservice/aslan/core/common/service/instantmessage/workflow_task.go:365-376 | the summary comes from the last repository that is the first or a primary one |
| WorkflowTask.SummaryFromLastSummarised | pkg/microservice/aslan/core/common/service/instantmessage/workflow_task.go:365-426 | branch or tag, pull requests and commit link all come from the last summarised repository, its pull requests sorted; the commit is empty or 8 characters |
| WorkflowTask.SummarizeRepo | pkg/microservice/aslan/core/common/service/instantmessage/workflow_task.go:376-419 | one repository is summarised, and its pull requests are sorted in place exactly when it is summarised |
| WorkflowTask.SummarizeRepos | pkg/microservice/aslan/core/common/service/instantmessage/workflow_task.go:365-422 | the loop computes the summary and sorts each summarised repository's pull requests in place |
| WorkflowTask.PRInfo | pkg/microservice/aslan/core/common/service/instantmessage/workflow_task.go:423-426 | the pull-request text is empty exactly when there are no entries |
| Resource.AddActionEffect | pkg/microservice/user/core/service/permission/resource.go:112-142 | one action creates its resource's definition, with the scope's alias and no rules, when missing, appends its rule exactly when the filter keeps it, and leaves every other definition alone |
| Resource.DefinitionsKeys | pkg/microservice/user/core/service/permission/resource.go:111-123 | there is a definition exactly for each resource some action acts on, filtered or not |
| Resource.DefinitionsGroup | pkg/microservice/user/core/service/permission/resource.go:111-143 | each definition holds exactly its resource's surviving actions, in input order; a resource whose actions were all filtered keeps an empty rule list |
| Resource.KeptCases | pkg/microservice/user/core/service/permission/resource.go:125-137 | under PM exactly the two pod-debugging verbs are dropped, under another environment type exactly the PM SSH verb, and with no type nothing |
| Resource.SkippingNothing | pkg/microservice/user/core/service/permission/resource.go:146-152 | outside PM no project resource is skipped |
| Resource.OrderUnderPM | pkg/microservice/user/core/service/permission/resource.go:146-152 | under PM the project listing is the seven resources other than the production environment and production service, in sequence order |
| Resource.OrderOtherwise | pkg/microservice/user/core/service/permission/resource.go:145-157 | otherwise a project listing follows the whole project sequence, and any other scope the system sequence |
| Resource.Listing | pkg/microservice/user/core/service/permission/resource.go:145-157 | one entry per resource of the order, at its position |
| Resource.ListingEntries | pkg/microservice/user/core/service/permission/resource.go:145-157 | an entry is empty exactly when no action acts on that resource, and otherwise is that resource's grouped definition |
| Resource.GetResourceActionDefinitions | pkg/microservice/user/core/service/permission/resource.go:96-160 | a failed action listing is returned as the scope-named error; otherwise the grouped definitions listed in the scope's order |
| Resource.GroupActions | pkg/microservice/user/core/service/permission/resource.go:111-143 | the grouping loop builds exactly the definitions of the actions |
| Resource.GroupAction | pkg/microservice/user/core/service/permission/resource.go:113-142 | one iteration files the action as AddActionEffect describes |
| Resource.ListInOrder | pkg/microservice/user/core/service/permission/resource.go:145-157 | the listing loop lists the definitions in the scope's order |
| Resource.ListSkipping | pkg/microservice/user/core/service/permission/resource.go:147-152 | the project loop lists the sequence without the production resources under PM |
| CollaborationMode.ValidMemberInfoMeans | pkg/microservice/aslan/core/collaboration/service/collaboration_mode.go:30-40 | the check holds exactly when the two lists have the same length and the members and the details' IDs form the same set |
| CollaborationMode.RepetitionsTolerated | pkg/microservice/aslan/core/collaboration/service/collaboration_mode.go:31-39 | repeated members pass when the lengths agree and the sets match; lengths that differ fail |
| CollaborationMode.SaveCollaborationMode | pkg/microservice/aslan/core/collaboration/service/collaboration_mode.go:42-64 | a mode whose members do not match is refused with the mismatch error and the store untouched; otherwise the store's own write result decides |
| CollaborationMode.DeleteCollaborationMode | pkg/microservice/aslan/core/collaboration/service/collaboration_mode.go:66-73 | a failed delete returns its error with nothing changed; after a successful delete the instances' revision is reset, and its result returned |
| CollaborationMode.GetCollaborationMode | pkg/microservice/aslan/core/collaboration/service/collaboration_mode.go:75-90 | a missing mode is reported as not found without error; another lookup failure is returned without a mode; otherwise the stored mode |
| CollaborationMode.CollaborationStore.Save | pkg/microservice/aslan/core/collaboration/service/collaboration_mode.go:46 | a write (Create here, Update likewise at line 58) changes exactly the mode's entry, unless it fails |
| CollaborationMode.CollaborationStore.Remove | pkg/microservice/aslan/core/collaboration/service/collaboration_mode.go:67 | a delete removes exactly the mode's entry, unless it fails |
| CollaborationMode.CollaborationStore.ResetRevision | pkg/microservice/aslan/core/collaboration/service/collaboration_mode.go:72 | a reset is recorded for the mode, unless it fails |
| TimeUtil.ElapsedOf | pkg/util/time.go:24-44 | the age is the number of whole units that fit in the elapsed seconds, in the largest unit below a day or days, with seconds and minutes under 60 and hours under 24; a negative time is "0s" |
| TimeUtil.ElapsedUnit | pkg/util/time.go:28-42 | under a minute reads in seconds, under an hour in minutes, under a day in hours, otherwise in days |
| TimeUtil.AgeAtAMinute | pkg/util/time.go:28-43 | 59 seconds read "59s", 60 read "1m", and a time in the future reads "0s" |
| TimeUtil.DayStart | pkg/util/time.go:58-59 | the start of a day is a UTC midnight on the local calendar day of the instant |
| TimeUtil.DayStartNextDay | pkg/util/time.go:58-59 | a day later starts exactly a day later |
| TimeUtil.NumDaysBounds | pkg/util/time.go:52 | for end not before start the day count is the whole days that fit between them |
| TimeUtil.GetDailyStartTimestamps | pkg/util/time.go:48-69 | numDays + 2 entries: the start of each day from the start's day on, then end plus a day; a span whose size is not positive fails as Go's slice does |
| TimeUtil.DailyStartsSpacing | pkg/util/time.go:56-63 | consecutive day starts are midnights exactly a day apart |
| Common.GoDiv | pkg/util/time.go:52 | Go's integer conversion truncates toward zero: for a negative span the day count is the negation of the whole days in its magnitude |
| VMLog.VMJobKey | pkg/microservice/aslan/core/vm/service/log.go:44-46 | the key is "vm-job-" followed by the job's key |
| VMLog.VMJobKeyInjective | pkg/microservice/aslan/core/vm/service/log.go:44-46 | different jobs never share a cache key |
| VMLog.SplitSlash | pkg/microservice/aslan/core/vm/service/log.go:152 | the pieces between slashes, none holding a slash |
| VMLog.CleanElems | pkg/microservice/aslan/core/vm/service/log.go:152 | cleaning drops empty and "." elements and resolves "..", leaving ".." only at the head of a relative path |
| VMLog.CleanElements | pkg/microservice/aslan/core/vm/service/log.go:152 | a cleaned path has no empty, "." or slash-holding element, and ".." only leading a relative path |
| VMLog.Clean | pkg/microservice/aslan/core/vm/service/log.go:152 | a cleaned path is never empty |
| VMLog.GetObjectPath | pkg/microservice/aslan/core/vm/service/log.go:149-156 | the object key never starts with '/'; without a folder it is the name without its leading slashes |
| VMLog.GetObjectPathNoFolder | pkg/microservice/aslan/core/vm/service/log.go:155 | without a folder only leading slashes are removed, nothing is cleaned |
| VMLog.GetObjectPathExample | pkg/microservice/aslan/core/vm/service/log.go:151-153 | with a folder the path is joined and cleaned: folder "/a//" and name "b" give "a/b" |
| VMLog.ExampleClean | pkg/microservice/aslan/core/vm/service/log.go:152 | repeated slashes collapse: "/a///b" cleans to "/a/b" |
| VMLog.UploadSubfolder | pkg/microservice/aslan/core/vm/service/log.go:111-115 | the log folder lies under the storage's folder when it has one, and ends in "/log"; the workflow name is lower-cased on ASCII letters |
| VMLog.LogFileNameShape | pkg/microservice/aslan/core/vm/service/log.go:124-125 | the log file name has no '_' and no upper-case ASCII letter and ends in ".log" |
| VMLog.UploadPlan | pkg/microservice/aslan/core/vm/service/log.go:104-147 | a failed storage lookup is an error; without a log file nothing is uploaded; otherwise the job's log file goes to the storage's bucket under a key without a leading '/' |
| TemplateErr.WordLen | pkg/microservice/aslan/core/common/util/template.go:33 | the longest prefix of word characters |
| TemplateErr.MatchAtFront | pkg/microservice/aslan/core/common/util/template.go:33 | a match at the front is "<." then word characters then ">" |
| TemplateErr.KeysAreAllMatches | pkg/microservice/aslan/core/common/util/template.go:37-45 | the key list is the capture of every non-overlapping match, left to right |
| TemplateErr.KeysAreWords | pkg/microservice/aslan/core/common/util/template.go:33-44 | every extracted key is made of word characters |
| TemplateErr.NoAngleNoKeys | pkg/microservice/aslan/core/common/util/template.go:37-38 | a message without '<' has no keys |
| TemplateErr.EmptyAndRepeatedKeys | pkg/microservice/aslan/core/common/util/template.go:33-44 | an empty key and repeated keys are both kept |
| TemplateErr.ImproveErr | pkg/microservice/aslan/core/common/util/template.go:36-49 | with keys found the error lists the missing keys; otherwise it wraps the original message; both under the template-validation prefix |

## Left out

- HTTP handlers, notification sending, YAML and `text/template` execution, Redis, S3 and file I/O, and the log streaming around these files are not modelled. They are I/O.
- Database, registry, storage, cluster and project lookups are inputs (maps or `Result` values), not queries. `mongo.ErrNoDocuments` is the "not found" case of a lookup.
- Decoding job specs with `IToi` is the identity: a job's spec is a datatype alternative chosen by its job type.
- The hidden helpers are modelled by stated assumptions.
  - `GetJobOutputKey` is modelled as `{{.job.<key>.output.<name>}}`; only its injectivity in the key is used.
  - `getJobRankMap` is an input map of ranks.
  - `getOriginJobName` is a field of the environment.
  - `SetTargetImage` is a function parameter that changes only the target image.
  - `GetRepoNamespace` defaults an empty namespace to the owner.
  - `jobNameFormat` and `ReleaseCandidate` are inputs.
  - `MergeBuildEnvs` and `getOutputKey` are not part of this model beyond their uses as stated.
  - `logError` sets the job to Failed with the message.
- Status strings, verbs, provider names and the scanning output keys are datatype alternatives or named constants; only their distinctness matters to the proofs.
- The build job's `Instantiate`, `SetPreset`, `SetOptions`, `GetRepos`, `MergeWebhookRepo`, `LintJob` and `GetOutPuts` are not modelled, and neither are the scanning job's `Instantiate`, `SetOptions`, `GetRepos`, `MergeWebhookRepo`, `LintJob` and `GetOutPuts`. They decode the spec, query the store or list output keys through the hidden `getOutputKey`, and have no merge or selection rule of their own.
- `fillScanningDetail` is not modelled: the scanning information reaches `ToJobs` already filled in. `fillBuildDetail` is modelled (`JobBuildJob.FilledBuild`). `getBuildJobVariables` and `getScanningJobVariables` are inputs of the compilers' environments (`buildVariables` and `workflowVariables`).
- The Dockerfile template's content, the share-storage settings, the registry list and the Sonar address are not modelled in the job tasks' steps.
- The scanning task's steps, which `toJobTask` builds at job_scanning.go:459-560 (tool install, cache download, git, scanning script, cache upload, SonarQube check), are not modelled: a scanning job task carries its key, name, info, timeout and outputs and an empty list of steps. The in-place rendering of the scanning's repositories for the git step (job_scanning.go:502) is modelled by `JobScanning.RenderedScanning`.
- A job task does not carry `Spec.Properties` (variables, cluster, strategy, resource request, share storage, cache settings), `ErrorPolicy`, `Infrastructure` or `VMLabels`, which the three compilers set (job_build.go:478-509, job_scanning.go:385-418, job_distribute_image.go:297-324). The build's cache settings are computed (`JobBuildJob.CacheOf`) and used to choose its steps, but not stored in the task.
- JobBuild.MergeRepos: `mergeRepos` also defaults an empty RepoNamespace of each custom repository to its owner, in place (job_build.go:931-933), and the caller sees that change. The model leaves the custom repositories as they were; it uses their defaulted namespace only to match them.
- JobScanning.ScanningJob.UpdateWithLatestSetting: modelled on values. The repositories a merge hands to a stored scanning are also the latest scanning's, so a later stored scanning of the same name starts from the earlier one's choices; the model carries them forward (`JobScanning.LatestMergesCarryChoices`). When the latest setting holds two entries matching one stored scanning, Go appends the same pointer twice and mutates it both times, so both copies end as the second merge left them. The model keeps each merge as it was computed.
- JobBuildJob.CompileEntry: fills each entry's build from the saved build and its template. Go caches the filled build by name and the template by id for the whole call (job_build.go:453-466). The template's pre-build part is shared, and each fill writes its merged variables into it (job_build.go:885, 907). So a later module of a build made from the same template starts from the earlier modules' merged variables. A later module without its own target also keeps the repositories the earlier entry left. The model gives each module the template's own variables and the saved build's repositories. A template without a pre-build part is not modelled either.
- JobBuildJob.RefreshFromBuild: refreshes from the build filled in for the entry's module, as `CompileEntry` does. The template's shared pre-build variables, which accumulate across entries in Go (job_build.go:355, 368), are left out for the same reason.
- TimeUtil.GetDailyStartTimestamps: the local zone is a fixed offset, so daylight-saving changes are left out. The float rounding of `Hours() / 24`, and the saturation of `time.Duration` for spans beyond about 292 years, are also left out.
- TimeUtil.ElapsedOf: `time.Now` is the parameter `now` of `Age`.
- VMLog.Clean: `path.Clean` is modelled by its element rules on slash-separated paths; Windows separators are left out.
- `savaVMJobLog` and the Redis status map (`Exists`, `Set`, `Delete`) are not modelled; they are cache and file I/O.
- CollaborationMode.CollaborationStore.Save: a store write either succeeds or returns the given fault; the store's own conflict rules are not modelled.
- JobDistributeImage.TaggedTargets: tags a FromJob target with the corrected tag rule of the Findings table (`RuleTag`), not with the rule as the code applies it (`RuleTagAsWritten`). The two give the same tag on every rule without the preBuild placeholder (`RuleTagAgreesWithoutPreBuild`). On a rule that holds it, the code leaves the placeholder in the tag, and the model substitutes it.
- JobDistributeImage.TaggedTargetFromSaved: states the corrected rule's tag, for the same reason as TaggedTargets.
- JobDistributeImage.TagQuotedTarget: assigns the corrected rule's tag, for the same reason as TaggedTargets.
- JobDistributeImage.TagQuotedTargets: the loop inherits TagQuotedTarget's corrected tag.
- JobDistributeImage.DistributeToJobsFromJob: FromJob tags follow the corrected rule, for the same reason as TaggedTargets.
- JobDistributeImage.ImageDistributeJob.ToJobs: for a FromJob source with a tag rule holding the preBuild placeholder, computes the corrected tag rather than the code's, as TaggedTargets says.
- VMLog.UploadSubfolder: `strings.ToLower` is modelled on ASCII letters only (`Common.ToLower`). A workflow name with a non-ASCII upper-case letter, such as "Ärger", keeps that letter in the model, where Go lowers it.
- VMLog.LogFileNameShape: "no upper-case letter" is stated for ASCII letters only, for the same reason as UploadSubfolder.
- Error messages drop the text of the underlying Go error, the `: %v` part. A lookup in the model is a map, so there is no underlying error to quote. For example, "find build: X error" stands for the code's "find build: X error: <cause>".
- Cronjob.HandleCronjob: returns the store's or queue's error as it is; the code wraps it with `e.ErrUpsertCronjob.AddDesc`.
- WorkflowTask.SummaryFromLastSummarised: the commit message that the notification splits off at its first line (workflow_task.go lines 415-416) is not part of the summary.
- Object IDs are natural numbers, and a generated ID is the collection's next free number.
- Concurrency, goroutines and sleeps (the delayed removal of the log file) are not modelled.

## Findings

| source | as written | input that shows it | evidently intended | confidence | as-written member | corrected member |
|---|---|---|---|---|---|---|
| pkg/microservice/aslan/core/workflow/service/workflow/job/job_distribute_image.go:252-255 | both `strings.ReplaceAll` calls start from the raw tag rule, so the second assignment discards the first and the preBuild tag placeholder is never substituted | tag rule `{{.job.preBuild.imageTag}}` with a quoted build job: the target tag stays the raw placeholder | both placeholders are substituted, each by the quoted job's image-tag output key | not executed | JobDistributeImage.RuleTagAsWrittenCounterexample | JobDistributeImage.RuleTagResolvesPreBuild |
