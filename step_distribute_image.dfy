/**
 * The controller of the image-distribute step: before the step runs it
 * checks every target has a source image and names each target image in
 * the target registry; after the step runs it publishes each target image
 * in the workflow's global context under the job's IMAGE output.
 */
module StepDistributeImage {
  import opened Common
  import opened Models
  import opened JobBuild
  import opened JobBuildJob
  import opened JobDistributeImage

  /** What the step is given, or nothing useful when the spec is of another kind. */
  function AsDistributeStep(spec: StepSpec): (r: StepSpec)
    ensures r.DistributeStepSpec?
    ensures spec.DistributeStepSpec? ==> r == spec
  {
    if spec.DistributeStepSpec? then spec
    else DistributeStepSpec(Registry("", "", "", ""), Registry("", "", "", ""), [])
  }

  const SourceImageEmpty := "source image is empty"

  /**
   * The index of the first target without a source image, or the number
   * of targets when every target has one.
   */
  function FirstEmptySource(ts: seq<DistributeTaskTarget>): (r: nat)
    ensures r <= |ts|
    ensures forall i :: 0 <= i < r ==> ts[i].sourceImage != ""
    ensures r < |ts| ==> ts[r].sourceImage == ""
  {
    if |ts| == 0 then 0
    else if ts[0].sourceImage == "" then 0
    else 1 + FirstEmptySource(ts[1..])
  }

  /**
   * A target whose image in the target registry has been named. What the
   * name is lies outside this model (`imageIn`); naming it changes
   * nothing else about the target.
   */
  function WithTargetImage(t: DistributeTaskTarget, reg: Registry,
                           imageIn: (DistributeTaskTarget, Registry) -> string): DistributeTaskTarget
  {
    t.(targetImage := imageIn(t, reg))
  }

  /** The global-context key under which a target's image is published. */
  function StepImageKey(jobName: string, t: DistributeTaskTarget): string
  {
    JobOutputKey(TaskKey(jobName, t.serviceName, t.serviceModule), ImageKey)
  }

  /** The global context after publishing the targets in order: a later target overwrites an earlier one's key. */
  function PublishedContext(ctx: map<string, string>, jobName: string, ts: seq<DistributeTaskTarget>)
    : map<string, string>
  {
    if |ts| == 0 then ctx
    else
      var last := ts[|ts| - 1];
      PublishedContext(ctx, jobName, ts[..|ts| - 1])[StepImageKey(jobName, last) := last.targetImage]
  }

  /** No later target is published under target i's key. */
  predicate LastWithStepKey(jobName: string, ts: seq<DistributeTaskTarget>, i: nat)
    requires i < |ts|
  {
    forall j :: i < j < |ts| ==> StepImageKey(jobName, ts[j]) != StepImageKey(jobName, ts[i])
  }

  /**
   * Publishing adds exactly the targets' keys: every key it holds was
   * there before or belongs to a target, and no key is lost.
   */
  lemma {:induction false} PublishedContextKeys(ctx: map<string, string>, jobName: string, ts: seq<DistributeTaskTarget>)
    ensures var r := PublishedContext(ctx, jobName, ts);
      (forall key :: key in ctx ==> key in r)
      && (forall i :: 0 <= i < |ts| ==> StepImageKey(jobName, ts[i]) in r)
      && (forall key :: key in r ==> key in ctx || exists i :: 0 <= i < |ts| && StepImageKey(jobName, ts[i]) == key)
    decreases |ts|
  {
    if |ts| > 0 {
      var init := ts[..|ts| - 1];
      PublishedContextKeys(ctx, jobName, init);
      assert forall i :: 0 <= i < |init| ==> init[i] == ts[i];
    }
  }

  /** A key no target is published under keeps its value. */
  lemma {:induction false} PublishedContextOthers(ctx: map<string, string>, jobName: string,
                                                  ts: seq<DistributeTaskTarget>, key: string)
    requires key in ctx
    requires forall i :: 0 <= i < |ts| ==> StepImageKey(jobName, ts[i]) != key
    ensures key in PublishedContext(ctx, jobName, ts) && PublishedContext(ctx, jobName, ts)[key] == ctx[key]
    decreases |ts|
  {
    if |ts| > 0 {
      var init := ts[..|ts| - 1];
      assert forall i :: 0 <= i < |init| ==> init[i] == ts[i];
      PublishedContextOthers(ctx, jobName, init, key);
    }
  }

  /** Of two targets with one key, the later one's image is the one published. */
  lemma {:induction false} PublishedContextLastWins(ctx: map<string, string>, jobName: string,
                                                    ts: seq<DistributeTaskTarget>, i: nat)
    requires i < |ts| && LastWithStepKey(jobName, ts, i)
    ensures StepImageKey(jobName, ts[i]) in PublishedContext(ctx, jobName, ts)
    ensures PublishedContext(ctx, jobName, ts)[StepImageKey(jobName, ts[i])] == ts[i].targetImage
    decreases |ts|
  {
    var init := ts[..|ts| - 1];
    if i < |ts| - 1 {
      assert StepImageKey(jobName, ts[|ts| - 1]) != StepImageKey(jobName, ts[i]);
      assert init[i] == ts[i];
      assert LastWithStepKey(jobName, init, i) by {
        forall j | i < j < |init| ensures StepImageKey(jobName, init[j]) != StepImageKey(jobName, init[i]) {
          assert init[j] == ts[j];
        }
      }
      PublishedContextLastWins(ctx, jobName, init, i);
    }
  }

  /**
   * The step compiled for a distribute job publishes exactly the outputs
   * the job declares: the key of each step target is the job's output for
   * the target in the same place.
   */
  lemma StepKeysAreJobOutputs(name: string, stages: seq<Stage>, spec: DistributeJobSpec, env: DistributeEnvironment)
    requires DistributeToJobs(name, stages, spec, env).err.None?
    ensures var o := DistributeToJobs(name, stages, spec, env);
      var outs := DistributeOutputs(name, o.spec);
      var steps := o.tasks[0].steps[0].spec.targets;
      |outs| == |steps| && forall i :: 0 <= i < |steps| ==> StepImageKey(name, steps[i]) == outs[i]
  {
    DistributeToJobsTask(name, stages, spec, env);
  }

  class DistributeImageCtl {
    var jobName: string
    var sourceRegistry: Registry
    var targetRegistry: Registry
    /** The targets, shared with the step's own spec. */
    var targets: seq<DistributeTaskTarget>
    /** The workflow's global context. */
    var globalContext: map<string, string>

    /** The controller reads the step's spec; from then on the step and the controller share it. */
    constructor(step: StepTask, jobName: string, globalContext: map<string, string>)
      ensures this.jobName == jobName && this.globalContext == globalContext
      ensures DistributeStepSpec(sourceRegistry, targetRegistry, targets) == AsDistributeStep(step.spec)
    {
      var spec := AsDistributeStep(step.spec);
      this.jobName := jobName;
      this.sourceRegistry := spec.sourceRegistry;
      this.targetRegistry := spec.targetRegistry;
      this.targets := spec.targets;
      this.globalContext := globalContext;
    }

    /** The step's spec, which is the controller's. */
    function StepSpecOf(): StepSpec
      reads this
    {
      DistributeStepSpec(sourceRegistry, targetRegistry, targets)
    }

    /**
     * Name each target's image in the target registry, in order; a target
     * without a source image stops the run with an error, the targets
     * before it already updated.
     */
    method PreRun(imageIn: (DistributeTaskTarget, Registry) -> string) returns (err: Option<string>)
      modifies this
      ensures jobName == old(jobName) && globalContext == old(globalContext)
      ensures sourceRegistry == old(sourceRegistry) && targetRegistry == old(targetRegistry)
      ensures var k := FirstEmptySource(old(targets));
        |targets| == |old(targets)|
        && (forall i :: 0 <= i < |targets| ==>
              targets[i] == if i < k then WithTargetImage(old(targets)[i], targetRegistry, imageIn) else old(targets)[i])
        && (err.None? <==> k == |old(targets)|)
        && (err.Some? ==> err.value == SourceImageEmpty)
    {
      ghost var original := targets;
      var i := 0;
      while i < |targets|
        invariant 0 <= i <= |targets| && |targets| == |original|
        invariant jobName == old(jobName) && globalContext == old(globalContext)
        invariant sourceRegistry == old(sourceRegistry) && targetRegistry == old(targetRegistry)
        invariant forall k :: 0 <= k < i ==> original[k].sourceImage != ""
        invariant forall k :: 0 <= k < |targets| ==>
          targets[k] == if k < i then WithTargetImage(original[k], targetRegistry, imageIn) else original[k]
      {
        if targets[i].sourceImage == "" {
          FirstEmptySourceAt(original, i);
          return Some(SourceImageEmpty);
        }
        targets := targets[i := WithTargetImage(targets[i], targetRegistry, imageIn)];
        i := i + 1;
      }
      FirstEmptySourceAt(original, i);
      err := None;
    }

    /** Publish each target's image under the job's IMAGE output for its service module. */
    method AfterRun() returns (err: Option<string>)
      modifies this
      ensures err.None?
      ensures jobName == old(jobName) && targets == old(targets)
      ensures sourceRegistry == old(sourceRegistry) && targetRegistry == old(targetRegistry)
      ensures globalContext == PublishedContext(old(globalContext), jobName, targets)
    {
      var i := 0;
      while i < |targets|
        invariant 0 <= i <= |targets|
        invariant jobName == old(jobName) && targets == old(targets)
        invariant sourceRegistry == old(sourceRegistry) && targetRegistry == old(targetRegistry)
        invariant globalContext == PublishedContext(old(globalContext), jobName, targets[..i])
      {
        var t := targets[i];
        assert targets[..i + 1][..i] == targets[..i];
        var targetKey := TaskKey(jobName, t.serviceName, t.serviceModule);
        globalContext := globalContext[JobOutputKey(targetKey, ImageKey) := t.targetImage];
        i := i + 1;
      }
      assert targets[..i] == targets;
      err := None;
    }
  }

  /** The first target without a source image is the first index at which one is missing. */
  lemma FirstEmptySourceAt(ts: seq<DistributeTaskTarget>, i: nat)
    requires i <= |ts| && forall k :: 0 <= k < i ==> ts[k].sourceImage != ""
    requires i == |ts| || ts[i].sourceImage == ""
    ensures FirstEmptySource(ts) == i
  {
  }
}
