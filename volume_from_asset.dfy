/**
 * The job executor that creates a named container volume from an uploaded
 * asset once a build's tasks have run: look the asset up, create the
 * extraction directory, unpack the archive into it, create the volume, and
 * copy the unpacked files into the volume through a short-lived container.
 *
 * Every external effect is an input: what the asset lookup, the path
 * resolvers, the directory creation, the archive extraction and each process
 * launch produce is given by `Collaborators`. The executor's observable
 * behaviour is the ordered list of `Action`s it performs and how it completes.
 */
module VolumeFromAsset {
  import opened Errors
  import opened Decimal

  /** The build a job belongs to: its identity and its working directory. */
  datatype Build = Build(id: string, fullBuildPath: string)

  /** Build jobs: the variant this executor realizes, and any other job class. */
  datatype Job =
    | CreateVolumeFromAssetAfterBuildTaskJob(build: Build, assetId: string, volumeName: string)
    | OtherJob(className: string)

  datatype Asset = Asset(id: string)

  /** The absolute form of a location, as seen from the host and from inside the service's own container. */
  datatype AbsolutePaths = AbsolutePaths(host: string, guest: string)

  /** How one launched process ended: it exited with a code, or it could not be started at all. */
  datatype ProcessOutcome = Exited(code: int) | LaunchFailed(message: string)

  predicate Succeeded(outcome: ProcessOutcome)
  {
    outcome.Exited? && outcome.code == 0
  }

  /** What the outside world does when the executor calls into it. */
  datatype Collaborators = Collaborators(
    /** The container-management binary configured for instantiation. */
    dockerBinaryPath: string,
    findUploadedById: string -> Completion<Asset>,
    uploadPaths: Asset -> AbsolutePaths,
    /** Extraction location for an asset, a build id and a volume name. */
    extractPaths: (Asset, string, string) -> AbsolutePaths,
    /** Recursive directory creation; throws synchronously on failure. */
    mkdir: string -> Completion<()>,
    /** Unpacks the archive `file` into the directory `cwd`. */
    extract: (string, string) -> Completion<()>,
    /** Launches `binary` with an argument vector in a working directory. */
    spawn: (string, seq<string>, string) -> ProcessOutcome,
    /** The value the process supervisor rejects with for a failed process. */
    rejection: ProcessOutcome -> Thrown)

  /** One observable action of the executor, in the order it happens. */
  datatype Action =
    | CreateJobLogger(build: Build)
    | LogInfo(message: string)
    | LogError(message: string)
    | FindAsset(assetId: string)
    | MakeDirectory(path: string)
    | ExtractArchive(file: string, cwd: string)
    | Spawn(binary: string, args: seq<string>, cwd: string)

  /** How a call completes and what it did on the way. */
  datatype Run = Run(outcome: Completion<()>, actions: seq<Action>)

  /** What `execute` throws for a job it does not support: a bare `new Error()`. */
  const UnsupportedJobError := OtherError("Error", "")

  function Supports(job: Job): bool
  {
    job.CreateVolumeFromAssetAfterBuildTaskJob?
  }

  function CreatingMessage(volumeName: string, assetId: string): string
  {
    "Creating volume '" + volumeName + "' from asset '" + assetId + "'."
  }

  function VolumeCreateArgs(volumeName: string): seq<string>
  {
    ["volume", "create", "--name", volumeName]
  }

  function CopyArgs(hostExtractPath: string, volumeName: string): seq<string>
  {
    ["run", "--rm", "-v", hostExtractPath + ":/source", "-v", volumeName + ":/target", "alpine", "ash", "-c", "cp -av /source/* /target"]
  }

  /** The two process launches, each with its own failure diagnostics. */
  datatype SpawnPurpose = CreateVolume | CopyIntoVolume

  function SpawnFailureMessage(purpose: SpawnPurpose, outcome: ProcessOutcome): string
  {
    match (purpose, outcome)
    case (CreateVolume, Exited(code)) => "Failed to extract asset, exit code " + IntToDecimal(code) + "."
    case (CreateVolume, LaunchFailed(message)) => "Failed to extract asset, error " + message + "."
    case (CopyIntoVolume, Exited(code)) => "Failed to copy files from asset to volume, exit code " + IntToDecimal(code) + "."
    case (CopyIntoVolume, LaunchFailed(message)) => "Failed to copy files from asset to volume, error " + message + "."
  }

  /** The steps that follow a successful asset lookup, in order. */
  datatype Step =
    | MakeDirectoryStep(path: string)
    | ExtractStep(file: string, cwd: string)
    | SpawnStep(args: seq<string>, cwd: string, purpose: SpawnPurpose)

  function Plan(build: Build, volumeName: string, upload: AbsolutePaths, extract: AbsolutePaths): seq<Step>
  {
    [ MakeDirectoryStep(extract.guest),
      ExtractStep(upload.guest, extract.guest),
      SpawnStep(VolumeCreateArgs(volumeName), build.fullBuildPath, CreateVolume),
      SpawnStep(CopyArgs(extract.host, volumeName), build.fullBuildPath, CopyIntoVolume) ]
  }

  /** The external effect a step has, whether or not it then fails. */
  function StepEffect(step: Step, binary: string): Action
  {
    match step
    case MakeDirectoryStep(path) => MakeDirectory(path)
    case ExtractStep(file, cwd) => ExtractArchive(file, cwd)
    case SpawnStep(args, cwd, _) => Spawn(binary, args, cwd)
  }

  function Perform(step: Step, c: Collaborators): Run
  {
    match step
    case MakeDirectoryStep(path) => Run(c.mkdir(path), [MakeDirectory(path)])
    case ExtractStep(file, cwd) => Run(c.extract(file, cwd), [ExtractArchive(file, cwd)])
    case SpawnStep(args, cwd, purpose) =>
      var outcome := c.spawn(c.dockerBinaryPath, args, cwd);
      if Succeeded(outcome) then Run(Normal(()), [Spawn(c.dockerBinaryPath, args, cwd)])
      else Run(Threw(c.rejection(outcome)), [Spawn(c.dockerBinaryPath, args, cwd), LogError(SpawnFailureMessage(purpose, outcome))])
  }

  /** Performs the steps in order, stopping at the first one that fails. */
  function RunPlan(steps: seq<Step>, c: Collaborators): Run
    decreases |steps|
  {
    if steps == [] then Run(Normal(()), [])
    else
      var first := Perform(steps[0], c);
      if first.outcome.Threw? then first
      else
        var rest := RunPlan(steps[1..], c);
        Run(rest.outcome, first.actions + rest.actions)
  }

  /** The specification of `execute`. */
  function JobRun(job: Job, c: Collaborators): Run
  {
    if !Supports(job) then Run(Threw(UnsupportedJobError), [])
    else
      var opening := [CreateJobLogger(job.build), LogInfo(CreatingMessage(job.volumeName, job.assetId)), FindAsset(job.assetId)];
      match c.findUploadedById(job.assetId)
      case Threw(e) => Run(Threw(e), opening)
      case Normal(asset) =>
        var plan := Plan(job.build, job.volumeName, c.uploadPaths(asset), c.extractPaths(asset, job.build.id, job.volumeName));
        var rest := RunPlan(plan, c);
        Run(rest.outcome, opening + rest.actions)
  }

  /** The plan performed step by step: each case stops at the first step that fails. */
  lemma RunPlanUnfolded(build: Build, volumeName: string, upload: AbsolutePaths, extract: AbsolutePaths, c: Collaborators)
    ensures var steps := Plan(build, volumeName, upload, extract);
      var made, extracted := c.mkdir(extract.guest), c.extract(upload.guest, extract.guest);
      var opening := [MakeDirectory(extract.guest), ExtractArchive(upload.guest, extract.guest)];
      var created, copied := Perform(steps[2], c), Perform(steps[3], c);
      RunPlan(steps, c) ==
        if made.Threw? then Run(made, [MakeDirectory(extract.guest)])
        else if extracted.Threw? then Run(extracted, opening)
        else if created.outcome.Threw? then Run(created.outcome, opening + created.actions)
        else Run(copied.outcome, opening + created.actions + copied.actions)
  {
    var steps := Plan(build, volumeName, upload, extract);
    var created, copied := Perform(steps[2], c), Perform(steps[3], c);
    assert steps[1..][1..] == [steps[2], steps[3]];
    assert steps[1..][1..][1..] == [steps[3]];
    assert RunPlan(steps[1..][1..][1..][1..], c) == Run(Normal(()), []);
    assert copied.actions + [] == copied.actions;
    assert RunPlan(steps[1..][1..][1..], c) == copied;
    if created.outcome.Normal? {
      assert RunPlan(steps[1..][1..], c) == Run(copied.outcome, created.actions + copied.actions);
    }
  }

  /** Creates the named volume in the build's working directory. */
  method SpawnVolumeCreate(volumeName: string, workingDirectory: string, c: Collaborators) returns (r: Run)
    ensures var args := ["volume", "create", "--name", volumeName];
      var outcome := c.spawn(c.dockerBinaryPath, args, workingDirectory);
      && (Succeeded(outcome) ==> r == Run(Normal(()), [Spawn(c.dockerBinaryPath, args, workingDirectory)]))
      && (outcome.Exited? && outcome.code != 0 ==> r == Run(Threw(c.rejection(outcome)),
            [Spawn(c.dockerBinaryPath, args, workingDirectory),
             LogError("Failed to extract asset, exit code " + IntToDecimal(outcome.code) + ".")]))
      && (outcome.LaunchFailed? ==> r == Run(Threw(c.rejection(outcome)),
            [Spawn(c.dockerBinaryPath, args, workingDirectory),
             LogError("Failed to extract asset, error " + outcome.message + ".")]))
  {
    var args := ["volume", "create", "--name", volumeName];
    var outcome := c.spawn(c.dockerBinaryPath, args, workingDirectory);
    var actions := [Spawn(c.dockerBinaryPath, args, workingDirectory)];
    if Succeeded(outcome) {
      r := Run(Normal(()), actions);
    } else {
      match outcome {
        case Exited(code) =>
          actions := actions + [LogError("Failed to extract asset, exit code " + IntToDecimal(code) + ".")];
        case LaunchFailed(message) =>
          actions := actions + [LogError("Failed to extract asset, error " + message + ".")];
      }
      r := Run(Threw(c.rejection(outcome)), actions);
    }
  }

  /** Copies the unpacked files into the volume by mounting both into a throw-away container. */
  method SpawnCopyVolumeUsingTemporaryContainer(absoluteExtractedAssetHostPath: string, volumeName: string,
                                                workingDirectory: string, c: Collaborators) returns (r: Run)
    ensures var args := ["run", "--rm", "-v", absoluteExtractedAssetHostPath + ":/source", "-v", volumeName + ":/target",
                         "alpine", "ash", "-c", "cp -av /source/* /target"];
      var outcome := c.spawn(c.dockerBinaryPath, args, workingDirectory);
      && (Succeeded(outcome) ==> r == Run(Normal(()), [Spawn(c.dockerBinaryPath, args, workingDirectory)]))
      && (outcome.Exited? && outcome.code != 0 ==> r == Run(Threw(c.rejection(outcome)),
            [Spawn(c.dockerBinaryPath, args, workingDirectory),
             LogError("Failed to copy files from asset to volume, exit code " + IntToDecimal(outcome.code) + ".")]))
      && (outcome.LaunchFailed? ==> r == Run(Threw(c.rejection(outcome)),
            [Spawn(c.dockerBinaryPath, args, workingDirectory),
             LogError("Failed to copy files from asset to volume, error " + outcome.message + ".")]))
  {
    var args := ["run", "--rm", "-v", absoluteExtractedAssetHostPath + ":/source", "-v", volumeName + ":/target",
                 "alpine", "ash", "-c", "cp -av /source/* /target"];
    var outcome := c.spawn(c.dockerBinaryPath, args, workingDirectory);
    var actions := [Spawn(c.dockerBinaryPath, args, workingDirectory)];
    if Succeeded(outcome) {
      r := Run(Normal(()), actions);
    } else {
      match outcome {
        case Exited(code) =>
          actions := actions + [LogError("Failed to copy files from asset to volume, exit code " + IntToDecimal(code) + ".")];
        case LaunchFailed(message) =>
          actions := actions + [LogError("Failed to copy files from asset to volume, error " + message + ".")];
      }
      r := Run(Threw(c.rejection(outcome)), actions);
    }
  }

  /** The steps after a successful lookup: make the directory, unpack, create the volume, copy into it. */
  method ProvisionVolume(build: Build, volumeName: string, uploadPaths: AbsolutePaths, extractPaths: AbsolutePaths,
                         c: Collaborators) returns (r: Run)
    ensures r == RunPlan(Plan(build, volumeName, uploadPaths, extractPaths), c)
  {
    RunPlanUnfolded(build, volumeName, uploadPaths, extractPaths, c);
    ghost var plan := Plan(build, volumeName, uploadPaths, extractPaths);
    var actions := [MakeDirectory(extractPaths.guest)];
    var made := c.mkdir(extractPaths.guest);
    if made.Threw? {
      r := Run(made, actions);
      return;
    }
    actions := actions + [ExtractArchive(uploadPaths.guest, extractPaths.guest)];
    var extracted := c.extract(uploadPaths.guest, extractPaths.guest);
    if extracted.Threw? {
      r := Run(extracted, actions);
      return;
    }
    var created := SpawnVolumeCreate(volumeName, build.fullBuildPath, c);
    assert created == Perform(plan[2], c);
    actions := actions + created.actions;
    if created.outcome.Threw? {
      r := Run(created.outcome, actions);
      return;
    }
    var copied := SpawnCopyVolumeUsingTemporaryContainer(extractPaths.host, volumeName, build.fullBuildPath, c);
    assert copied == Perform(plan[3], c);
    r := Run(copied.outcome, actions + copied.actions);
  }

  /** Realizes one job; unsupported jobs are rejected before anything else happens. */
  method Execute(job: Job, c: Collaborators) returns (r: Run)
    ensures r == JobRun(job, c)
    ensures r.actions == [] <==> !Supports(job)
    ensures !Supports(job) ==> r.outcome == Threw(OtherError("Error", ""))
  {
    if !Supports(job) {
      r := Run(Threw(UnsupportedJobError), []);
      return;
    }
    var actions := [CreateJobLogger(job.build)];
    actions := actions + [LogInfo("Creating volume '" + job.volumeName + "' from asset '" + job.assetId + "'.")];
    actions := actions + [FindAsset(job.assetId)];
    ghost var opening := actions;
    var found := c.findUploadedById(job.assetId);
    if found.Threw? {
      r := Run(Threw(found.error), actions);
      return;
    }
    var asset := found.value;
    var uploadPaths := c.uploadPaths(asset);
    var extractPaths := c.extractPaths(asset, job.build.id, job.volumeName);
    var provisioned := ProvisionVolume(job.build, job.volumeName, uploadPaths, extractPaths, c);
    r := Run(provisioned.outcome, actions + provisioned.actions);
  }

  // ---------------------------------------------------------------------------
  // Properties of the job executor
  // ---------------------------------------------------------------------------

  /** Actions that touch the file system or launch a process. */
  predicate IsEffect(action: Action)
  {
    action.MakeDirectory? || action.ExtractArchive? || action.Spawn?
  }

  /** The effects among the actions, in order. */
  function Effects(actions: seq<Action>): seq<Action>
  {
    if actions == [] then [] else (if IsEffect(actions[0]) then [actions[0]] else []) + Effects(actions[1..])
  }

  function StepEffects(steps: seq<Step>, binary: string): seq<Action>
  {
    seq(|steps|, i requires 0 <= i < |steps| => StepEffect(steps[i], binary))
  }

  /** How many steps, from the first, succeed before one fails. */
  function Succeeding(steps: seq<Step>, c: Collaborators): (n: nat)
    ensures n <= |steps|
    decreases |steps|
  {
    if steps == [] || Perform(steps[0], c).outcome.Threw? then 0 else 1 + Succeeding(steps[1..], c)
  }

  /** The asset-dependent steps of a supported job whose asset was found. */
  function JobPlan(job: Job, c: Collaborators, asset: Asset): seq<Step>
    requires Supports(job)
  {
    Plan(job.build, job.volumeName, c.uploadPaths(asset), c.extractPaths(asset, job.build.id, job.volumeName))
  }

  lemma {:induction false} EffectsConcat(a: seq<Action>, b: seq<Action>)
    ensures Effects(a + b) == Effects(a) + Effects(b)
    decreases |a|
  {
    if a == [] {
      assert a + b == b;
    } else {
      assert (a + b)[1..] == a[1..] + b;
      EffectsConcat(a[1..], b);
    }
  }

  /** A step has exactly its own effect, whether it succeeds or fails. */
  lemma PerformEffects(step: Step, c: Collaborators)
    ensures Effects(Perform(step, c).actions) == [StepEffect(step, c.dockerBinaryPath)]
  {
    var actions := Perform(step, c).actions;
    if |actions| == 1 {
      assert actions[1..] == [];
    } else {
      EffectsNone(actions[1..]);
    }
  }

  lemma {:induction false} EffectsNone(actions: seq<Action>)
    requires forall i :: 0 <= i < |actions| ==> !IsEffect(actions[i])
    ensures Effects(actions) == []
    decreases |actions|
  {
    if actions != [] {
      EffectsNone(actions[1..]);
    }
  }

  lemma StepEffectsCons(step: Step, steps: seq<Step>, binary: string)
    ensures StepEffects([step] + steps, binary) == [StepEffect(step, binary)] + StepEffects(steps, binary)
  {
  }

  /**
   * Running a plan performs the steps in order and stops at the first failing
   * one: the effects are exactly those of the successful steps and of the
   * failing step, and the run fails with that step's error.
   */
  lemma {:induction false} RunPlanStopsAtFirstFailure(steps: seq<Step>, c: Collaborators)
    ensures var n, r := Succeeding(steps, c), RunPlan(steps, c);
      && (r.outcome.Normal? <==> n == |steps|)
      && (n < |steps| ==> r.outcome == Perform(steps[n], c).outcome)
      && Effects(r.actions) == StepEffects(steps[..if n < |steps| then n + 1 else n], c.dockerBinaryPath)
    decreases |steps|
  {
    if steps == [] {
      assert steps[..0] == [];
    } else {
      var first := Perform(steps[0], c);
      PerformEffects(steps[0], c);
      if first.outcome.Threw? {
        assert StepEffects(steps[..1], c.dockerBinaryPath) == [StepEffect(steps[0], c.dockerBinaryPath)];
      } else {
        var rest := RunPlan(steps[1..], c);
        var m := Succeeding(steps[1..], c);
        RunPlanStopsAtFirstFailure(steps[1..], c);
        EffectsConcat(first.actions, rest.actions);
        assert RunPlan(steps, c) == Run(rest.outcome, first.actions + rest.actions);
        assert Succeeding(steps, c) == 1 + m;
        var taken := if m < |steps| - 1 then m + 1 else m;
        assert steps[..taken + 1] == [steps[0]] + steps[1..][..taken];
        StepEffectsCons(steps[0], steps[1..][..taken], c.dockerBinaryPath);
      }
    }
  }

  lemma {:induction false} SucceedingIsFirstFailure(steps: seq<Step>, c: Collaborators, k: nat)
    requires k < |steps| && Perform(steps[k], c).outcome.Threw?
    requires forall i :: 0 <= i < k ==> Perform(steps[i], c).outcome.Normal?
    ensures Succeeding(steps, c) == k
    decreases k
  {
    if k > 0 {
      assert Perform(steps[0], c).outcome.Normal?;
      SucceedingIsFirstFailure(steps[1..], c, k - 1);
    }
  }

  /**
   * The capability check agrees with the guard of `execute`: exactly the
   * supported jobs get past it, and a job that does starts by creating its
   * job logger.
   */
  lemma SupportsMatchesExecuteGuard(job: Job, c: Collaborators)
    ensures Supports(job) ==> |JobRun(job, c).actions| >= 3 && JobRun(job, c).actions[0] == CreateJobLogger(job.build)
    ensures !Supports(job) <==> JobRun(job, c) == Run(Threw(OtherError("Error", "")), [])
  {
  }

  /**
   * The first line announces the volume and the asset and the lookup follows
   * it; when the lookup fails, no directory is made, nothing is extracted and
   * no process is launched.
   */
  lemma LookupFailureStopsEverything(job: Job, c: Collaborators)
    requires Supports(job) && c.findUploadedById(job.assetId).Threw?
    ensures JobRun(job, c) == Run(Threw(c.findUploadedById(job.assetId).error), [
      CreateJobLogger(job.build),
      LogInfo("Creating volume '" + job.volumeName + "' from asset '" + job.assetId + "'."),
      FindAsset(job.assetId)])
    ensures Effects(JobRun(job, c).actions) == []
  {
    EffectsNone(JobRun(job, c).actions);
  }

  /**
   * A step that fails prevents every later step: the job fails with that
   * step's error and its effects are those of the steps up to the failing one.
   */
  lemma FailingStepPreventsLaterSteps(job: Job, c: Collaborators, asset: Asset, k: nat)
    requires Supports(job) && c.findUploadedById(job.assetId) == Normal(asset)
    requires k < 4 && Perform(JobPlan(job, c, asset)[k], c).outcome.Threw?
    requires forall i :: 0 <= i < k ==> Perform(JobPlan(job, c, asset)[i], c).outcome.Normal?
    ensures JobRun(job, c).outcome == Perform(JobPlan(job, c, asset)[k], c).outcome
    ensures Effects(JobRun(job, c).actions) == StepEffects(JobPlan(job, c, asset)[..k + 1], c.dockerBinaryPath)
  {
    var plan := JobPlan(job, c, asset);
    var opening := [CreateJobLogger(job.build), LogInfo(CreatingMessage(job.volumeName, job.assetId)), FindAsset(job.assetId)];
    SucceedingIsFirstFailure(plan, c, k);
    RunPlanStopsAtFirstFailure(plan, c);
    EffectsConcat(opening, RunPlan(plan, c).actions);
    EffectsNone(opening);
  }

  /**
   * When every step succeeds the job logs, looks the asset up, makes the
   * extraction directory and unpacks the upload into it (both by their guest
   * paths), creates the volume and then copies the files through a temporary
   * container that mounts the host extraction path, both launches running in
   * the build's working directory with exactly these argument vectors.
   */
  lemma SuccessfulJobActions(job: Job, c: Collaborators, asset: Asset)
    requires Supports(job) && c.findUploadedById(job.assetId) == Normal(asset)
    requires forall i :: 0 <= i < 4 ==> Perform(JobPlan(job, c, asset)[i], c).outcome.Normal?
    ensures var upload, extract := c.uploadPaths(asset), c.extractPaths(asset, job.build.id, job.volumeName);
      JobRun(job, c) == Run(Normal(()), [
        CreateJobLogger(job.build),
        LogInfo("Creating volume '" + job.volumeName + "' from asset '" + job.assetId + "'."),
        FindAsset(job.assetId),
        MakeDirectory(extract.guest),
        ExtractArchive(upload.guest, extract.guest),
        Spawn(c.dockerBinaryPath, ["volume", "create", "--name", job.volumeName], job.build.fullBuildPath),
        Spawn(c.dockerBinaryPath,
              ["run", "--rm", "-v", extract.host + ":/source", "-v", job.volumeName + ":/target",
               "alpine", "ash", "-c", "cp -av /source/* /target"],
              job.build.fullBuildPath)])
  {
    var plan := JobPlan(job, c, asset);
    RunPlanUnfolded(job.build, job.volumeName, c.uploadPaths(asset), c.extractPaths(asset, job.build.id, job.volumeName), c);
    assert Perform(plan[0], c).outcome.Normal? && Perform(plan[1], c).outcome.Normal?;
    assert Perform(plan[2], c).outcome.Normal? && Perform(plan[3], c).outcome.Normal?;
  }

  /**
   * When the volume cannot be created the job logs the step's diagnostic and
   * fails with the supervisor's error; the copy container is never launched.
   */
  lemma VolumeCreateFailureStopsCopy(job: Job, c: Collaborators, asset: Asset)
    requires Supports(job) && c.findUploadedById(job.assetId) == Normal(asset)
    requires Perform(JobPlan(job, c, asset)[0], c).outcome.Normal? && Perform(JobPlan(job, c, asset)[1], c).outcome.Normal?
    requires !Succeeded(c.spawn(c.dockerBinaryPath, ["volume", "create", "--name", job.volumeName], job.build.fullBuildPath))
    ensures var outcome := c.spawn(c.dockerBinaryPath, ["volume", "create", "--name", job.volumeName], job.build.fullBuildPath);
      var actions := JobRun(job, c).actions;
      && JobRun(job, c).outcome == Threw(c.rejection(outcome))
      && |actions| == 7
      && actions[5] == Spawn(c.dockerBinaryPath, ["volume", "create", "--name", job.volumeName], job.build.fullBuildPath)
      && actions[6] == LogError(if outcome.Exited?
                                then "Failed to extract asset, exit code " + IntToDecimal(outcome.code) + "."
                                else "Failed to extract asset, error " + outcome.message + ".")
      && forall i :: 0 <= i < |actions| && actions[i].Spawn? ==>
           actions[i].args == ["volume", "create", "--name", job.volumeName]
  {
    var plan := JobPlan(job, c, asset);
    RunPlanUnfolded(job.build, job.volumeName, c.uploadPaths(asset), c.extractPaths(asset, job.build.id, job.volumeName), c);
    assert Perform(plan[2], c).outcome.Threw?;
  }

  /**
   * A concrete run: volume "vol1" from asset "asset-1" for a build working in
   * "/b/1", where creating the volume exits with code 1.
   */
  lemma VolumeCreateExitCodeOne(c: Collaborators, asset: Asset)
    requires c.findUploadedById("asset-1") == Normal(asset)
    requires c.mkdir(c.extractPaths(asset, "1", "vol1").guest).Normal?
    requires c.extract(c.uploadPaths(asset).guest, c.extractPaths(asset, "1", "vol1").guest).Normal?
    requires c.spawn(c.dockerBinaryPath, ["volume", "create", "--name", "vol1"], "/b/1") == Exited(1)
    ensures var run := JobRun(CreateVolumeFromAssetAfterBuildTaskJob(Build("1", "/b/1"), "asset-1", "vol1"), c);
      && run.outcome == Threw(c.rejection(Exited(1)))
      && |run.actions| == 7
      && run.actions[5] == Spawn(c.dockerBinaryPath, ["volume", "create", "--name", "vol1"], "/b/1")
      && run.actions[6] == LogError("Failed to extract asset, exit code 1.")
  {
    var job := CreateVolumeFromAssetAfterBuildTaskJob(Build("1", "/b/1"), "asset-1", "vol1");
    var plan := JobPlan(job, c, asset);
    assert plan[0] == MakeDirectoryStep(c.extractPaths(asset, "1", "vol1").guest);
    assert plan[1] == ExtractStep(c.uploadPaths(asset).guest, c.extractPaths(asset, "1", "vol1").guest);
    VolumeCreateFailureStopsCopy(job, c, asset);
    assert IntToDecimal(1) == "1" by {
      assert NatToDecimal(1) == [DigitChar(1)];
    }
  }
}
