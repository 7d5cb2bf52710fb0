/**
 * The llama.cpp backend: a long-lived Python service whose set-up is a fixed
 * four-stage pipeline reporting progress records, and whose worker process is
 * spawned with the parent's environment merged with SYCL settings and the
 * Level Zero device selector.
 *
 * Paths are joined with "/" and are not normalised.
 */
module LlamaCppBackend {
  import opened Wrappers
  import opened LevelZero
  import opened ApiService
  import Strings

  /** The status field of a progress record: "executing", "success" or "failed". */
  datatype ProgressStatus = Executing | ProgressSuccess | ProgressFailed

  /** The step field of a progress record: "start", the label of stage k, or "end". */
  datatype Step = StartStep | InStage(k: nat) | EndStep

  /** One record yielded by set_up. */
  datatype SetupProgress = SetupProgress(serviceName: string, step: Step, status: ProgressStatus, debugMessage: string)

  /** The number of stages of the set-up pipeline. */
  const StageCount: nat := 4

  /** The text of a step field. */
  function StepLabel(s: Step): string {
    match s
    case StartStep => "start"
    case EndStep => "end"
    case InStage(k) =>
      if k == 0 then "preparing work directory"
      else if k == 1 then "Detecting intel device"
      else if k == 2 then "install dependencies"
      else "move python environment to target"
  }

  /** Distinct steps carry distinct labels. */
  lemma StepLabelInjective(s: Step, t: Step)
    requires (s.InStage? ==> s.k < StageCount) && (t.InStage? ==> t.k < StageCount)
    requires StepLabel(s) == StepLabel(t)
    ensures s == t
  {
  }

  // The debug messages of the progress records.
  const StartMessage: string := "starting to set up python environment"
  const CloningMessage: string := "Cloning archetype python env"
  const ClonedMessage: string := "Cloning complete"
  const DetectingMessage: string := "Trying to identify intel hardware"
  const DetectedPrefix: string := "detected intel hardware "
  const InstallingMessage: string := "installing dependencies"
  const InstalledMessage: string := "dependencies installed"
  const MovingPrefix: string := "Moving python environment to target place at "
  const MovedPrefix: string := "Moved to "
  const SuccessMessage: string := "service set up completely"
  const FailurePrefix: string := "Failed to setup python environment due to "

  /** The debug message announcing stage k. */
  function BeginMessage(envDir: string, k: nat): string {
    if k == 0 then CloningMessage
    else if k == 1 then DetectingMessage
    else if k == 2 then InstallingMessage
    else MovingPrefix + envDir
  }

  /** The debug message closing stage k; `arch` is what device detection found. */
  function DoneMessage(envDir: string, arch: string, k: nat): string {
    if k == 0 then ClonedMessage
    else if k == 1 then DetectedPrefix + arch
    else if k == 2 then InstalledMessage
    else MovedPrefix + envDir
  }

  /** The record yielded when stage k begins. */
  function BeginRecord(name: string, envDir: string, k: nat): SetupProgress
    requires k < StageCount
  {
    SetupProgress(name, InStage(k), Executing, BeginMessage(envDir, k))
  }

  /** The record yielded when stage k has completed. */
  function DoneRecord(name: string, envDir: string, arch: string, k: nat): SetupProgress
    requires k < StageCount
  {
    SetupProgress(name, InStage(k), Executing, DoneMessage(envDir, arch, k))
  }

  function StartRecord(name: string): SetupProgress {
    SetupProgress(name, StartStep, Executing, StartMessage)
  }

  function SuccessRecord(name: string): SetupProgress {
    SetupProgress(name, EndStep, ProgressSuccess, SuccessMessage)
  }

  function FailureRecord(name: string, e: JsError): SetupProgress {
    SetupProgress(name, EndStep, ProgressFailed, FailurePrefix + ErrorString(e))
  }

  /** How far a set-up got: the stages completed, the detected architecture, and the error that ended it. */
  datatype SetupRun = SetupRun(completed: nat, arch: string, failure: Option<JsError>)

  /** A run either completes every stage, or stops with an error in the stage after the completed ones. */
  predicate WellFormedRun(run: SetupRun) {
    run.completed <= StageCount && (run.failure.None? <==> run.completed == StageCount)
  }

  /** The begin and done records of the first k stages. */
  function CompletedStages(name: string, envDir: string, arch: string, k: nat): (t: seq<SetupProgress>)
    requires k <= StageCount
    ensures |t| == 2 * k
  {
    if k == 0 then []
    else CompletedStages(name, envDir, arch, k - 1) + [BeginRecord(name, envDir, k - 1), DoneRecord(name, envDir, arch, k - 1)]
  }

  /** Every record set_up yields for a run, in order. */
  function SetupTrace(name: string, envDir: string, run: SetupRun): seq<SetupProgress>
    requires WellFormedRun(run)
  {
    [StartRecord(name)]
    + CompletedStages(name, envDir, run.arch, run.completed)
    + (if run.failure.None? then [SuccessRecord(name)]
       else [BeginRecord(name, envDir, run.completed), FailureRecord(name, run.failure.value)])
  }

  /** Stage k's two records sit at positions 2k and 2k+1 of CompletedStages. */
  lemma {:induction false} CompletedStagesAt(name: string, envDir: string, arch: string, k: nat, i: nat)
    requires k <= StageCount && i < k
    ensures CompletedStages(name, envDir, arch, k)[2 * i] == BeginRecord(name, envDir, i)
    ensures CompletedStages(name, envDir, arch, k)[2 * i + 1] == DoneRecord(name, envDir, arch, i)
  {
    if i < k - 1 {
      CompletedStagesAt(name, envDir, arch, k - 1, i);
    }
  }

  /** Every record of a completed stage is "executing" and none is an "end" record. */
  lemma CompletedStagesExecuting(name: string, envDir: string, arch: string, k: nat)
    requires k <= StageCount
    ensures forall i :: 0 <= i < 2 * k ==>
      CompletedStages(name, envDir, arch, k)[i].status == Executing && CompletedStages(name, envDir, arch, k)[i].step != EndStep
  {
    forall i | 0 <= i < 2 * k
      ensures CompletedStages(name, envDir, arch, k)[i].status == Executing && CompletedStages(name, envDir, arch, k)[i].step != EndStep
    {
      CompletedStagesAt(name, envDir, arch, k, i / 2);
    }
  }

  /**
   * The shape of the progress stream: it opens with the start record, every record
   * but the last is "executing", exactly the last one is the "end" record, and it
   * reports success exactly when every stage completed.
   */
  lemma SetupTraceShape(name: string, envDir: string, run: SetupRun)
    requires WellFormedRun(run)
    ensures var t := SetupTrace(name, envDir, run);
      && |t| == (if run.failure.None? then 2 * StageCount + 2 else 2 * run.completed + 3)
      && t[0] == StartRecord(name)
      && (forall i :: 0 <= i < |t| - 1 ==> t[i].status == Executing && t[i].step != EndStep)
      && t[|t| - 1].step == EndStep
      && (t[|t| - 1].status == ProgressSuccess <==> run.failure.None?)
      && (run.failure.Some? ==> t[|t| - 1] == FailureRecord(name, run.failure.value))
  {
    var t := SetupTrace(name, envDir, run);
    var c := CompletedStages(name, envDir, run.arch, run.completed);
    CompletedStagesExecuting(name, envDir, run.arch, run.completed);
    forall i | 0 <= i < |t| - 1
      ensures t[i].status == Executing && t[i].step != EndStep
    {
      if 1 <= i < 1 + |c| {
        assert t[i] == c[i - 1];
      }
    }
  }

  /** The stages are reported in pipeline order, each begun before it is done. */
  lemma SetupTraceStageOrder(name: string, envDir: string, run: SetupRun, k: nat)
    requires WellFormedRun(run) && k < run.completed
    ensures SetupTrace(name, envDir, run)[1 + 2 * k] == BeginRecord(name, envDir, k)
    ensures SetupTrace(name, envDir, run)[2 + 2 * k] == DoneRecord(name, envDir, run.arch, k)
  {
    CompletedStagesAt(name, envDir, run.arch, run.completed, k);
  }

  /** A failed stage is still announced: the record before the failure begins the stage that failed. */
  lemma SetupTraceFailedStage(name: string, envDir: string, run: SetupRun)
    requires WellFormedRun(run) && run.failure.Some?
    ensures var t := SetupTrace(name, envDir, run);
      t[|t| - 2] == BeginRecord(name, envDir, run.completed)
  {
  }

  /** Which file-system and process work of set_up failed (None: it worked; Some(e): it threw e). */
  datatype SetupIo = SetupIo(
    filesAtStart: set<string>,        // what the set-up probe sees when set_up begins
    filesAtEnd: set<string>,          // what it sees when set_up ends
    prototypeCheck: Option<JsError>,  // the archetype environment is missing
    clone: Option<JsError>,           // removing or copying the work directory failed
    tools: Option<JsError>,           // copying ls_level_zero or installing its requirements failed
    discovered: DiscoveryOutput,      // what ls_level_zero printed
    requirementsFile: Option<JsError>,// requirements.txt is missing
    wheelFile: Option<JsError>,       // the llama_cpp_python wheel is missing
    wheelInstall: Option<JsError>,    // pip failed on the wheel
    requirementsInstall: Option<JsError>, // pip failed on requirements.txt
    move: Option<JsError>)            // moving the work directory into place failed

  const WheelName: string := "llama_cpp_python-0.3.2-cp311-cp311-win_amd64.whl"

  /** What the set-up pipeline makes of the step outcomes, given what device detection returned. */
  function RunOf(io: SetupIo, workDir: string, targetDir: string, requirementsPath: string, wheelPath: string,
                 detected: Result<string, JsError>): (run: SetupRun)
    ensures WellFormedRun(run)
  {
    var cloned := CopyArchetypePythonEnv(io.prototypeCheck, io.clone, workDir);
    if cloned.Failure? then SetupRun(0, "", Some(cloned.error))
    else if detected.Failure? then SetupRun(1, "", Some(detected.error))
    else
      var arch := detected.value;
      if io.requirementsFile.Some? then SetupRun(2, arch, io.requirementsFile)
      else if io.wheelFile.Some? then SetupRun(2, arch, io.wheelFile)
      else
        var wheel := UvInstallDependencyStep(workDir, wheelPath, None, io.wheelInstall);
        var requirements := UvPipInstallRequirementsTxtStep(workDir, requirementsPath, false, false, true, io.requirementsInstall);
        var moved := MoveToFinalTarget(workDir, targetDir, io.move);
        if wheel.Failure? then SetupRun(2, arch, Some(wheel.error))
        else if requirements.Failure? then SetupRun(2, arch, Some(requirements.error))
        else if moved.Failure? then SetupRun(3, arch, Some(moved.error))
        else SetupRun(4, arch, None)
  }

  /**
   * The device list, selection and discovery count set-up leaves: a failed clone
   * stops the pipeline before detection, so nothing changes; otherwise detectDevice
   * runs once, as AfterDetect and DetectRuns say.
   */
  function DevicesAfterSetUp(io: SetupIo, workDir: string, devices: seq<Device>, selected: int, runs: nat,
                             archOf: int -> string, priorityOf: string -> int): (seq<Device>, int, nat)
  {
    if CopyArchetypePythonEnv(io.prototypeCheck, io.clone, workDir).Failure? then (devices, selected, runs)
    else
      var after := AfterDetect(selected, devices, io.tools, io.discovered, archOf, priorityOf);
      (after.0, after.1, runs + DetectRuns(selected, io.tools))
  }

  /**
   * The first set-up of a service selects a device exactly as discovery does: when
   * it succeeds, discovery ran once and its list and best device are stored; when
   * detection itself fails, no device is selected.
   */
  lemma FirstSetupSelectsBest(io: SetupIo, workDir: string, targetDir: string, requirementsPath: string, wheelPath: string,
                              devices: seq<Device>, runs: nat, archOf: int -> string, priorityOf: string -> int)
    ensures var detected := DetectSpec(-1, devices, io.tools, io.discovered, archOf, priorityOf);
      var after := DevicesAfterSetUp(io, workDir, devices, -1, runs, archOf, priorityOf);
      && (RunOf(io, workDir, targetDir, requirementsPath, wheelPath, detected).failure.None? ==>
            var d := Discovery(io.discovered, archOf, priorityOf);
            d.Success? && after == (d.value.0, d.value.1, runs + 1))
      && (CopyArchetypePythonEnv(io.prototypeCheck, io.clone, workDir).Success? && detected.Failure? ==> after.1 == -1)
  {
    RunOfSucceedsIff(io, workDir, targetDir, requirementsPath, wheelPath,
                     DetectSpec(-1, devices, io.tools, io.discovered, archOf, priorityOf));
  }

  /** A run completes exactly when no step failed. */
  lemma RunOfSucceedsIff(io: SetupIo, workDir: string, targetDir: string, requirementsPath: string, wheelPath: string,
                         detected: Result<string, JsError>)
    ensures RunOf(io, workDir, targetDir, requirementsPath, wheelPath, detected).failure.None? <==>
      && io.prototypeCheck.None? && io.clone.None? && detected.Success?
      && io.requirementsFile.None? && io.wheelFile.None?
      && io.wheelInstall.None? && io.requirementsInstall.None? && io.move.None?
    ensures RunOf(io, workDir, targetDir, requirementsPath, wheelPath, detected).failure.None? ==>
      RunOf(io, workDir, targetDir, requirementsPath, wheelPath, detected).arch == detected.value
  {
  }

  /**
   * A first set-up (no device selected yet) succeeds exactly when every file-system and
   * process step works, the helper is installed and discovery finds a selectable device.
   */
  lemma FirstSetupSucceedsIff(io: SetupIo, workDir: string, targetDir: string, requirementsPath: string,
                              wheelPath: string, devices: seq<Device>, archOf: int -> string, priorityOf: string -> int)
    ensures var detected := DetectSpec(-1, devices, io.tools, io.discovered, archOf, priorityOf);
      RunOf(io, workDir, targetDir, requirementsPath, wheelPath, detected).failure.None? <==>
        && io.prototypeCheck.None? && io.clone.None? && io.tools.None?
        && Discovery(io.discovered, archOf, priorityOf).Success?
        && io.requirementsFile.None? && io.wheelFile.None?
        && io.wheelInstall.None? && io.requirementsInstall.None? && io.move.None?
  {
    RunOfSucceedsIff(io, workDir, targetDir, requirementsPath, wheelPath,
                     DetectSpec(-1, devices, io.tools, io.discovered, archOf, priorityOf));
  }

  class LlamaCppBackendService {
    const baseDir: string
    const service: PythonApiService

    function ServiceDir(): string { baseDir + "/LlamaCPP" }
    function PythonEnvDir(): string { baseDir + "/llama-cpp-env" }
    /** Where set_up clones the archetype environment before moving it into place. */
    function WorkDir(): string { baseDir + "/" + service.name + "-env_tmp" }
    function RequirementsPath(): string { ServiceDir() + "/requirements.txt" }
    function WheelPath(): string { baseDir + "/" + WheelName }
    function HealthEndpointUrl(): string { service.baseUrl + "/health" }

    ghost predicate Valid()
      reads this, service
    {
      && service.Valid()
      && service.pythonExe == PythonEnvDir() + "/python.exe"
      && !service.isRequired
    }

    constructor (name: string, port: nat, baseDir: string, files: set<string>)
      ensures Valid() && fresh(service)
      ensures this.baseDir == baseDir && service.name == name && service.port == port
      ensures service.isSetUp == (PythonEnvDir() + "/python.exe" in files)
      ensures service.currentStatus == UninitializedStatus && service.selectedDeviceId == -1
    {
      this.baseDir := baseDir;
      service := new PythonApiService(name, port, false, baseDir + "/llama-cpp-env" + "/python.exe", files);
    }

    /**
     * set_up: publishes "installing", runs the four stages, publishes "notYetStarted"
     * or "installationFailed", and yields the progress records of SetupTrace.
     */
    method SetUp(io: SetupIo, archOf: int -> string, priorityOf: string -> int)
      returns (trace: seq<SetupProgress>)
      requires Valid()
      requires io.discovered.HelperPrinted? ==> DiscoveryWellNumbered(io.discovered.output)
      modifies service`isSetUp, service`currentStatus, service`published
      modifies service`allLevelZeroDevices, service`selectedDeviceId, service`discoveryRuns
      ensures Valid()
      ensures var detected := DetectSpec(old(service.selectedDeviceId), old(service.allLevelZeroDevices),
                                         io.tools, io.discovered, archOf, priorityOf);
        var run := RunOf(io, WorkDir(), PythonEnvDir(), RequirementsPath(), WheelPath(), detected);
        && trace == SetupTrace(service.name, PythonEnvDir(), run)
        && service.currentStatus == (if run.failure.None? then NotYetStarted else InstallationFailed)
        && service.published == old(service.published)
             + [service.InfoWith(Installing, io.filesAtStart), service.InfoWith(service.currentStatus, io.filesAtEnd)]
      ensures var detected := DetectSpec(old(service.selectedDeviceId), old(service.allLevelZeroDevices),
                                         io.tools, io.discovered, archOf, priorityOf);
        CopyArchetypePythonEnv(io.prototypeCheck, io.clone, WorkDir()).Success? && detected.Success? ==>
          0 <= service.selectedDeviceId < |service.allLevelZeroDevices|
          && detected.value == archOf(service.allLevelZeroDevices[service.selectedDeviceId].deviceId)
      ensures (service.allLevelZeroDevices, service.selectedDeviceId, service.discoveryRuns)
        == DevicesAfterSetUp(io, WorkDir(), old(service.allLevelZeroDevices), old(service.selectedDeviceId),
                             old(service.discoveryRuns), archOf, priorityOf)
      ensures service.isSetUp == service.ServiceIsSetUp(io.filesAtEnd)
      ensures service.desiredStatus == old(service.desiredStatus)
      ensures service.encapsulatedProcess == old(service.encapsulatedProcess)
      ensures service.killed == old(service.killed) && service.spawnRequests == old(service.spawnRequests)
    {
      service.SetStatus(Installing, io.filesAtStart);
      trace := InstallAndConclude(io, archOf, priorityOf);
    }

    /** The try block of set_up and its success or failure ending, after "installing" is published. */
    method InstallAndConclude(io: SetupIo, archOf: int -> string, priorityOf: string -> int)
      returns (trace: seq<SetupProgress>)
      requires Valid()
      requires io.discovered.HelperPrinted? ==> DiscoveryWellNumbered(io.discovered.output)
      modifies service`isSetUp, service`currentStatus, service`published
      modifies service`allLevelZeroDevices, service`selectedDeviceId, service`discoveryRuns
      ensures Valid()
      ensures var detected := DetectSpec(old(service.selectedDeviceId), old(service.allLevelZeroDevices),
                                         io.tools, io.discovered, archOf, priorityOf);
        var run := RunOf(io, WorkDir(), PythonEnvDir(), RequirementsPath(), WheelPath(), detected);
        && trace == SetupTrace(service.name, PythonEnvDir(), run)
        && service.currentStatus == (if run.failure.None? then NotYetStarted else InstallationFailed)
        && service.published == old(service.published) + [service.InfoWith(service.currentStatus, io.filesAtEnd)]
      ensures var detected := DetectSpec(old(service.selectedDeviceId), old(service.allLevelZeroDevices),
                                         io.tools, io.discovered, archOf, priorityOf);
        CopyArchetypePythonEnv(io.prototypeCheck, io.clone, WorkDir()).Success? && detected.Success? ==>
          0 <= service.selectedDeviceId < |service.allLevelZeroDevices|
          && detected.value == archOf(service.allLevelZeroDevices[service.selectedDeviceId].deviceId)
      ensures (service.allLevelZeroDevices, service.selectedDeviceId, service.discoveryRuns)
        == DevicesAfterSetUp(io, WorkDir(), old(service.allLevelZeroDevices), old(service.selectedDeviceId),
                             old(service.discoveryRuns), archOf, priorityOf)
      ensures service.isSetUp == service.ServiceIsSetUp(io.filesAtEnd)
    {
      var records, completed, arch, failure := RunStages(io, archOf, priorityOf);
      trace := Conclude(records, completed, arch, failure, io.filesAtEnd);
    }

    /** The end of set_up: the success or failure record, then the final status. */
    method Conclude(records: seq<SetupProgress>, completed: nat, arch: string, failure: Option<JsError>,
                    filesAtEnd: set<string>) returns (trace: seq<SetupProgress>)
      requires Valid()
      requires WellFormedRun(SetupRun(completed, arch, failure))
      requires records == [StartRecord(service.name)] + CompletedStages(service.name, PythonEnvDir(), arch, completed)
                          + (if failure.Some? then [BeginRecord(service.name, PythonEnvDir(), completed)] else [])
      modifies service`isSetUp, service`currentStatus, service`published
      ensures Valid()
      ensures trace == SetupTrace(service.name, PythonEnvDir(), SetupRun(completed, arch, failure))
      ensures service.currentStatus == (if failure.None? then NotYetStarted else InstallationFailed)
      ensures service.isSetUp == service.ServiceIsSetUp(filesAtEnd)
      ensures service.published == old(service.published) + [service.InfoWith(service.currentStatus, filesAtEnd)]
    {
      ghost var stages := [StartRecord(service.name)] + CompletedStages(service.name, PythonEnvDir(), arch, completed);
      if failure.None? {
        trace := records + [SuccessRecord(service.name)];
        service.SetStatus(NotYetStarted, filesAtEnd);
        assert trace == stages + [SuccessRecord(service.name)];
      } else {
        trace := records + [FailureRecord(service.name, failure.value)];
        service.SetStatus(InstallationFailed, filesAtEnd);
        assert trace == stages + [BeginRecord(service.name, PythonEnvDir(), completed), FailureRecord(service.name, failure.value)];
      }
    }

    /**
     * The try block of set_up: the four stages in order, each announced before it
     * runs and closed when it completes; the first failure ends the pipeline.
     */
    method RunStages(io: SetupIo, archOf: int -> string, priorityOf: string -> int)
      returns (records: seq<SetupProgress>, completed: nat, arch: string, failure: Option<JsError>)
      requires Valid()
      requires io.discovered.HelperPrinted? ==> DiscoveryWellNumbered(io.discovered.output)
      modifies service`allLevelZeroDevices, service`selectedDeviceId, service`discoveryRuns
      ensures Valid()
      ensures SetupRun(completed, arch, failure) ==
        RunOf(io, WorkDir(), PythonEnvDir(), RequirementsPath(), WheelPath(),
              DetectSpec(old(service.selectedDeviceId), old(service.allLevelZeroDevices), io.tools, io.discovered, archOf, priorityOf))
      ensures completed <= StageCount
      ensures records == [StartRecord(service.name)] + CompletedStages(service.name, PythonEnvDir(), arch, completed)
                         + (if failure.Some? then [BeginRecord(service.name, PythonEnvDir(), completed)] else [])
      ensures var detected := DetectSpec(old(service.selectedDeviceId), old(service.allLevelZeroDevices),
                                         io.tools, io.discovered, archOf, priorityOf);
        CopyArchetypePythonEnv(io.prototypeCheck, io.clone, WorkDir()).Success? && detected.Success? ==>
          0 <= service.selectedDeviceId < |service.allLevelZeroDevices|
          && detected.value == archOf(service.allLevelZeroDevices[service.selectedDeviceId].deviceId)
      ensures (service.allLevelZeroDevices, service.selectedDeviceId, service.discoveryRuns)
        == DevicesAfterSetUp(io, WorkDir(), old(service.allLevelZeroDevices), old(service.selectedDeviceId),
                             old(service.discoveryRuns), archOf, priorityOf)
    {
      var name, envDir := service.name, PythonEnvDir();
      completed, arch, failure := 0, "", None;
      records := [StartRecord(name), BeginRecord(name, envDir, 0)];
      assert records == [StartRecord(name)] + CompletedStages(name, envDir, arch, completed) + [BeginRecord(name, envDir, completed)];
      var cloned := CopyArchetypePythonEnv(io.prototypeCheck, io.clone, WorkDir());
      if cloned.Failure? {
        failure := Some(cloned.error);
        return;
      }
      records := records + [DoneRecord(name, envDir, arch, 0), BeginRecord(name, envDir, 1)];
      completed := 1;
      assert records == [StartRecord(name)] + CompletedStages(name, envDir, arch, completed) + [BeginRecord(name, envDir, completed)];
      ghost var devices, selected, runs := service.allLevelZeroDevices, service.selectedDeviceId, service.discoveryRuns;
      var r := service.DetectDevice(io.tools, io.discovered, archOf, priorityOf);
      assert (service.allLevelZeroDevices, service.selectedDeviceId, service.discoveryRuns)
        == DevicesAfterSetUp(io, WorkDir(), devices, selected, runs, archOf, priorityOf);
      if r.Failure? {
        failure := Some(r.error);
        return;
      }
      assert CompletedStages(name, envDir, arch, 1) == CompletedStages(name, envDir, r.value, 1);
      arch := r.value;
      records := records + [DoneRecord(name, envDir, arch, 1), BeginRecord(name, envDir, 2)];
      completed := 2;
      assert records == [StartRecord(name)] + CompletedStages(name, envDir, arch, completed) + [BeginRecord(name, envDir, completed)];
      records, completed, failure := InstallStages(io, arch, records);
    }

    /**
     * The last two stages of the try block: check the wheel and requirements files,
     * install both, then move the environment into place.
     */
    method InstallStages(io: SetupIo, arch: string, begun: seq<SetupProgress>)
      returns (records: seq<SetupProgress>, completed: nat, failure: Option<JsError>)
      requires CopyArchetypePythonEnv(io.prototypeCheck, io.clone, WorkDir()).Success?
      requires begun == [StartRecord(service.name)] + CompletedStages(service.name, PythonEnvDir(), arch, 2)
                        + [BeginRecord(service.name, PythonEnvDir(), 2)]
      ensures SetupRun(completed, arch, failure) ==
        RunOf(io, WorkDir(), PythonEnvDir(), RequirementsPath(), WheelPath(), Success(arch))
      ensures records == [StartRecord(service.name)] + CompletedStages(service.name, PythonEnvDir(), arch, completed)
                         + (if failure.Some? then [BeginRecord(service.name, PythonEnvDir(), completed)] else [])
    {
      var name, envDir := service.name, PythonEnvDir();
      records, completed, failure := begun, 2, None;
      if io.requirementsFile.Some? {
        failure := io.requirementsFile;
        return;
      }
      if io.wheelFile.Some? {
        failure := io.wheelFile;
        return;
      }
      var wheel := UvInstallDependencyStep(WorkDir(), WheelPath(), None, io.wheelInstall);
      if wheel.Failure? {
        failure := Some(wheel.error);
        return;
      }
      var requirements := UvPipInstallRequirementsTxtStep(WorkDir(), RequirementsPath(), false, false, true, io.requirementsInstall);
      if requirements.Failure? {
        failure := Some(requirements.error);
        return;
      }
      records := records + [DoneRecord(name, envDir, arch, 2), BeginRecord(name, envDir, 3)];
      completed := 3;
      assert records == [StartRecord(name)] + CompletedStages(name, envDir, arch, completed) + [BeginRecord(name, envDir, completed)];
      var moved := MoveToFinalTarget(WorkDir(), envDir, io.move);
      if moved.Failure? {
        failure := Some(moved.error);
        return;
      }
      records := records + [DoneRecord(name, envDir, arch, 3)];
      completed := 4;
      assert records == [StartRecord(name)] + CompletedStages(name, envDir, arch, completed);
    }

    /**
     * spawnAPIProcess: obtains the device selector (running discovery while no device
     * is selected), merges the additional variables into the parent's environment in
     * place, and spawns python.exe on llama_web_api.py at the service's port.
     */
    method SpawnAPIProcess(env: ProcessEnvironment, discovered: DiscoveryOutput,
                           archOf: int -> string, priorityOf: string -> int)
      returns (r: Result<SpawnRequest, JsError>)
      requires Valid()
      requires discovered.HelperPrinted? ==> DiscoveryWellNumbered(discovered.output)
      modifies env, service`allLevelZeroDevices, service`selectedDeviceId, service`discoveryRuns
      ensures Valid()
      ensures r.Failure? ==> env.vars == old(env.vars) && service.selectedDeviceId == -1
      ensures r.Success? ==>
        && service.selectedDeviceId >= 0
        && env.vars == SpawnEnv(old(env.vars), DeviceSelectorEnv(service.selectedDeviceId))
        && r.value == SpawnRequest(service.pythonExe, ["llama_web_api.py", "--port", Strings.IntToString(service.port)],
                                   ServiceDir(), env.vars)
      ensures old(service.selectedDeviceId) != -1 ==> r.Success? && service.selectedDeviceId == old(service.selectedDeviceId)
      ensures old(service.selectedDeviceId) == -1 ==>
        var d := Discovery(discovered, archOf, priorityOf);
        && (r.Success? <==> d.Success?)
        && (d.Success? ==> service.allLevelZeroDevices == d.value.0 && service.selectedDeviceId == d.value.1)
        && (d.Failure? ==> r.error == d.error)
    {
      ghost var d := Discovery(discovered, archOf, priorityOf);
      var selector := service.GetDeviceSelectorEnv(discovered, archOf, priorityOf);
      if selector.Failure? {
        return Failure(selector.error);
      }
      var additional := FixedSpawnEnv + selector.value;
      env.Assign(additional);
      r := Success(SpawnRequest(service.pythonExe, ["llama_web_api.py", "--port", Strings.IntToString(service.port)],
                                ServiceDir(), env.vars));
    }
  }

  /** The variables spawnAPIProcess always adds for the worker. */
  const FixedSpawnEnv: map<string, string> :=
    map["SYCL_ENABLE_DEFAULT_CONTEXTS" := "1", "SYCL_CACHE_PERSISTENT" := "1", "PYTHONIOENCODING" := "utf-8"]

  /** The process's environment object, which Object.assign updates in place. */
  class ProcessEnvironment {
    var vars: map<string, string>

    constructor (vars: map<string, string>)
      ensures this.vars == vars
    {
      this.vars := vars;
    }

    /** Object.assign(env, additional): every variable of `additional` is set, overriding. */
    method Assign(additional: map<string, string>)
      modifies this
      ensures vars == old(vars) + additional
    {
      vars := vars + additional;
    }
  }

  /** What spawn is asked to run: the executable, its arguments, the working directory and the environment. */
  datatype SpawnRequest = SpawnRequest(command: string, args: seq<string>, cwd: string, env: map<string, string>)

  /** The worker's environment: the inherited one, overridden by the fixed variables and the device selector. */
  function SpawnEnv(inherited: map<string, string>, selector: map<string, string>): map<string, string> {
    inherited + (FixedSpawnEnv + selector)
  }

  /**
   * What the worker sees: the selected device, the three fixed variables whatever the
   * parent had, and every other inherited variable unchanged; nothing else is added.
   */
  lemma SpawnEnvContents(inherited: map<string, string>, id: nat)
    ensures var env := SpawnEnv(inherited, DeviceSelectorEnv(id));
      && env.Keys == inherited.Keys + FixedSpawnEnv.Keys + {SelectorKey}
      && env[SelectorKey] == DeviceSelectorEnv(id)[SelectorKey]
      && env["SYCL_ENABLE_DEFAULT_CONTEXTS"] == "1"
      && env["SYCL_CACHE_PERSISTENT"] == "1"
      && env["PYTHONIOENCODING"] == "utf-8"
      && (forall k :: k in inherited && k !in FixedSpawnEnv && k != SelectorKey ==> env[k] == inherited[k])
  {
    var selector := DeviceSelectorEnv(id);
    assert selector.Keys == {SelectorKey};
    assert SelectorKey !in FixedSpawnEnv;
  }

  /** Merging is idempotent: spawning twice with the same device leaves the environment as after once. */
  lemma SpawnEnvIdempotent(inherited: map<string, string>, selector: map<string, string>)
    ensures SpawnEnv(SpawnEnv(inherited, selector), selector) == SpawnEnv(inherited, selector)
  {
  }
}
