/**
 * The long-lived Python backend service supervisor: its public status state machine
 * (start, stop, setStatus, get_info), the memoised Level Zero device selection, and
 * the common provisioning steps shared by every backend.
 *
 * Process spawning, the health poll, the file system and the UI channel are not
 * executed here: their outcomes are inputs, and every snapshot sent to the window is
 * appended to the ghost sequence `published`.
 */
module ApiService {
  import opened Wrappers
  import opened Json
  import opened LevelZero
  import Strings

  datatype BackendStatus =
    | UninitializedStatus
    | NotInstalled
    | NotYetStarted
    | Installing
    | InstallationFailed
    | Starting
    | Running
    | Stopping
    | Stopped
    | Failed

  /** The public snapshot sent to observers on "serviceInfoUpdate". */
  datatype ServiceInfo = ServiceInfo(
    serviceName: string,
    status: BackendStatus,
    baseUrl: string,
    port: int,
    isSetUp: bool,
    isRequired: bool)

  /** A thrown JavaScript error: its `name` and `message`. */
  datatype JsError = JsError(name: string, message: string)

  /** `${e}` for an Error object, as Error.prototype.toString renders it: an empty part drops the ": ". */
  function ErrorString(e: JsError): string {
    if e.name == "" then e.message
    else if e.message == "" then e.name
    else e.name + ": " + e.message
  }

  /** `new Error(message)`. */
  function PlainError(message: string): JsError {
    JsError("Error", message)
  }

  /** `new Error(prefix + "Error: " + cause)`: how the common steps wrap a caught error. */
  function Wrapped(prefix: string, cause: JsError): JsError {
    PlainError(prefix + "Error: " + ErrorString(cause))
  }

  const StoppingError: JsError := PlainError("Server currently stopping. Cannot start it.")
  const AlreadyRequestedError: JsError := PlainError("Server startup already requested")
  /** What reading `.id` of the missing device at index -1 throws. */
  const UndefinedDeviceError: JsError :=
    JsError("TypeError", "Cannot read properties of undefined (reading 'id')")
  /**
   * Stands for the ZodError that LsLevelZeroOutSchema.parse throws on invalid output;
   * zod's own message, which lists the offending paths, is not modelled.
   */
  const SchemaValidationError: JsError := JsError("ZodError", "invalid ls_level_zero output")
  /** The prefix detectDevice puts before any error it rethrows. */
  const DetectFailurePrefix: string := "Failure to identify intel hardware. "

  /** An OS process handle, known by its identity only. */
  datatype ProcessHandle = ProcessHandle(pid: nat)

  /** What awaiting spawnAPIProcess gave: a tracked process, or a thrown error. */
  datatype SpawnOutcome = Spawned(process: ProcessHandle) | SpawnThrew(error: JsError)

  /** How a call to start settles: a resolved status, or a rejection. */
  datatype StartOutcome = Returned(status: BackendStatus) | Threw(error: JsError)

  /** What running ls_level_zero.exe gave: parsed JSON, or a failure to run or to parse. */
  datatype DiscoveryOutput = HelperPrinted(output: Value) | HelperFailed(error: JsError)

  /** get_info's only side effect: an uninitialised status is resolved from the set-up flag. */
  function ResolvedStatus(s: BackendStatus, isSetUp: bool): (r: BackendStatus)
    ensures r != UninitializedStatus
    ensures s != UninitializedStatus ==> r == s
    ensures s == UninitializedStatus ==> (isSetUp ==> r == NotYetStarted) && (!isSetUp ==> r == NotInstalled)
  {
    if s == UninitializedStatus then (if isSetUp then NotYetStarted else NotInstalled) else s
  }

  /** Resolving twice is resolving once. */
  lemma ResolvedStatusIdempotent(s: BackendStatus, isSetUp: bool)
    ensures ResolvedStatus(ResolvedStatus(s, isSetUp), isSetUp) == ResolvedStatus(s, isSetUp)
  {
  }

  /** The guards of start let a request through exactly when none of them fires. */
  predicate StartAccepted(desired: BackendStatus, current: BackendStatus) {
    !(desired == Stopped && current != Stopped) && current != Running && desired != Running
  }

  /** The fields of a service that start and stop read and write; the last three are ghost bookkeeping. */
  datatype ServiceState = ServiceState(
    desired: BackendStatus,
    current: BackendStatus,
    process: Option<ProcessHandle>,
    isSetUp: bool,
    published: seq<ServiceInfo>,
    killed: seq<ProcessHandle>,
    spawnRequests: nat)

  /** The statuses that start, stop and the constructor ever assign to desiredStatus. */
  predicate IsDesirable(s: BackendStatus) {
    s == UninitializedStatus || s == Running || s == Stopped || s == Failed
  }

  /**
   * What a discovery run gives (getAllLevelZeroDevices, then selectBestLevelZeroDevice):
   * the validated device list and the index of the selected device, or what was thrown.
   */
  function Discovery(discovered: DiscoveryOutput, archOf: int -> string, priorityOf: string -> int)
    : (r: Result<(seq<Device>, nat), JsError>)
    ensures r.Success? <==>
      && discovered.HelperPrinted? && ParseLsLevelZeroOut(discovered.output).Success?
      && !NoneSelectableAmong(ParseLsLevelZeroOut(discovered.output).value,
                              |ParseLsLevelZeroOut(discovered.output).value|, archOf, priorityOf)
    ensures r.Success? ==>
      r.value.0 == ParseLsLevelZeroOut(discovered.output).value
      && IsBestAmong(r.value.0, |r.value.0|, r.value.1, archOf, priorityOf)
    ensures discovered.HelperFailed? ==> r == Failure(discovered.error)
    ensures discovered.HelperPrinted? && ParseLsLevelZeroOut(discovered.output).Failure? ==>
      r == Failure(SchemaValidationError)
    ensures discovered.HelperPrinted? && ParseLsLevelZeroOut(discovered.output).Success? && r.Failure? ==>
      r.error == UndefinedDeviceError
  {
    match discovered
    case HelperFailed(e) => Failure(e)
    case HelperPrinted(v) =>
      match ParseLsLevelZeroOut(v)
      case Failure(_) => Failure(SchemaValidationError)
      case Success(ds) =>
        var k := BestIndex(ds, |ds|, archOf, priorityOf);
        if k == -1 then Failure(UndefinedDeviceError) else Success((ds, k))
  }

  /**
   * What detectDevice returns, from the selected device and device list it starts
   * with, the outcome of installing the helper (`tools`) and what discovery gives.
   */
  function DetectSpec(selected: int, devices: seq<Device>, tools: Option<JsError>, discovered: DiscoveryOutput,
                      archOf: int -> string, priorityOf: string -> int): Result<string, JsError>
    requires selected == -1 || 0 <= selected < |devices|
  {
    if selected != -1 then Success(archOf(devices[selected].deviceId))
    else if tools.Some? then Failure(Wrapped(DetectFailurePrefix, tools.value))
    else
      match Discovery(discovered, archOf, priorityOf)
      case Failure(e) => Failure(Wrapped(DetectFailurePrefix, e))
      case Success((ds, k)) => Success(archOf(ds[k].deviceId))
  }

  /**
   * The device list and selection detectDevice leaves: unchanged while a device is
   * selected or the helper could not be installed; otherwise a valid discovery
   * output replaces the list, and the selection is its best device or stays -1.
   */
  function AfterDetect(selected: int, devices: seq<Device>, tools: Option<JsError>, discovered: DiscoveryOutput,
                       archOf: int -> string, priorityOf: string -> int): (seq<Device>, int)
  {
    if selected != -1 || tools.Some? then (devices, selected)
    else
      match Discovery(discovered, archOf, priorityOf)
      case Success((ds, k)) => (ds, k)
      case Failure(_) =>
        if discovered.HelperPrinted? && ParseLsLevelZeroOut(discovered.output).Success?
        then (ParseLsLevelZeroOut(discovered.output).value, -1)
        else (devices, -1)
  }

  /** How many discovery runs detectDevice adds: one exactly when it reaches the helper. */
  function DetectRuns(selected: int, tools: Option<JsError>): nat {
    if selected == -1 && tools.None? then 1 else 0
  }

  /**
   * Detection is memoised: after a successful detection the device is selected,
   * its architecture is the one reported, and detecting again, whatever the
   * helper would now give, runs nothing, changes nothing and reports the same.
   */
  lemma DetectMemoised(selected: int, devices: seq<Device>, tools: Option<JsError>, discovered: DiscoveryOutput,
                       tools2: Option<JsError>, discovered2: DiscoveryOutput,
                       archOf: int -> string, priorityOf: string -> int)
    requires selected == -1 || 0 <= selected < |devices|
    requires DetectSpec(selected, devices, tools, discovered, archOf, priorityOf).Success?
    ensures var (ds, k) := AfterDetect(selected, devices, tools, discovered, archOf, priorityOf);
      && 0 <= k < |ds|
      && DetectSpec(selected, devices, tools, discovered, archOf, priorityOf).value == archOf(ds[k].deviceId)
      && DetectRuns(k, tools2) == 0
      && AfterDetect(k, ds, tools2, discovered2, archOf, priorityOf) == (ds, k)
      && DetectSpec(k, ds, tools2, discovered2, archOf, priorityOf) == DetectSpec(selected, devices, tools, discovered, archOf, priorityOf)
  {
  }

  /** A failed detection leaves no device selected, so the next call runs discovery again. */
  lemma DetectFailureRetries(selected: int, devices: seq<Device>, tools: Option<JsError>, discovered: DiscoveryOutput,
                             archOf: int -> string, priorityOf: string -> int)
    requires selected == -1 || 0 <= selected < |devices|
    requires DetectSpec(selected, devices, tools, discovered, archOf, priorityOf).Failure?
    ensures selected == -1
    ensures AfterDetect(selected, devices, tools, discovered, archOf, priorityOf).1 == -1
    ensures DetectRuns(AfterDetect(selected, devices, tools, discovered, archOf, priorityOf).1, None) == 1
  {
  }

  class PythonApiService {
    const name: string
    const port: int
    const baseUrl: string
    const isRequired: bool
    /** The worker's python.exe; its presence on disk is what "set up" means. */
    const pythonExe: string

    var desiredStatus: BackendStatus
    var currentStatus: BackendStatus
    var encapsulatedProcess: Option<ProcessHandle>
    var isSetUp: bool
    var allLevelZeroDevices: seq<Device>
    /** -1 until a device has been selected. */
    var selectedDeviceId: int

    /** Every snapshot sent to the window, in order. */
    ghost var published: seq<ServiceInfo>
    /** Every process kill() was called on, in order. */
    ghost var killed: seq<ProcessHandle>
    /** How many times start went on to spawn a process. */
    ghost var spawnRequests: nat
    /** How many times ls_level_zero.exe was run. */
    ghost var discoveryRuns: nat

    ghost predicate Valid()
      reads this
    {
      && IdsArePositions(allLevelZeroDevices)
      && (selectedDeviceId == -1 || 0 <= selectedDeviceId < |allLevelZeroDevices|)
      && IsDesirable(desiredStatus)
    }

    /** The snapshot get_info builds from the current fields. */
    function Info(): ServiceInfo
      reads this
    {
      ServiceInfo(name, currentStatus, baseUrl, port, isSetUp, isRequired)
    }

    /** The snapshot published for status s when the set-up probe sees `files`. */
    function InfoWith(s: BackendStatus, files: set<string>): ServiceInfo {
      ServiceInfo(name, s, baseUrl, port, ServiceIsSetUp(files), isRequired)
    }

    /** serviceIsSetUp: the worker's python.exe exists on disk. */
    function ServiceIsSetUp(files: set<string>): bool {
      pythonExe in files
    }

    /** The constructor with the subclass's field initialiser `isSetUp = serviceIsSetUp()`. */
    constructor (name: string, port: nat, isRequired: bool, pythonExe: string, files: set<string>)
      ensures Valid()
      ensures this.name == name && this.port == port && this.isRequired == isRequired
      ensures this.pythonExe == pythonExe
      ensures baseUrl == "http://127.0.0.1:" + Strings.NatToString(port)
      ensures desiredStatus == UninitializedStatus && currentStatus == UninitializedStatus
      ensures encapsulatedProcess == None && isSetUp == (pythonExe in files)
      ensures allLevelZeroDevices == [] && selectedDeviceId == -1
      ensures published == [] && killed == [] && spawnRequests == 0 && discoveryRuns == 0
    {
      this.name := name;
      this.port := port;
      this.baseUrl := "http://127.0.0.1:" + Strings.NatToString(port);
      this.isRequired := isRequired;
      this.pythonExe := pythonExe;
      desiredStatus := UninitializedStatus;
      currentStatus := UninitializedStatus;
      encapsulatedProcess := None;
      isSetUp := pythonExe in files;
      allLevelZeroDevices := [];
      selectedDeviceId := -1;
      published := [];
      killed := [];
      spawnRequests := 0;
      discoveryRuns := 0;
    }

    /** get_info: resolves an uninitialised status, then returns the snapshot. */
    method GetInfo() returns (info: ServiceInfo)
      modifies this`currentStatus
      ensures currentStatus == ResolvedStatus(old(currentStatus), isSetUp)
      ensures info == Info()
    {
      if currentStatus == UninitializedStatus {
        currentStatus := if isSetUp then NotYetStarted else NotInstalled;
      }
      info := Info();
    }

    /** updateStatus: re-probes the disk and publishes one snapshot. */
    method UpdateStatus(files: set<string>)
      modifies this`isSetUp, this`currentStatus, this`published
      ensures isSetUp == ServiceIsSetUp(files)
      ensures currentStatus == ResolvedStatus(old(currentStatus), isSetUp)
      ensures published == old(published) + [Info()]
    {
      isSetUp := ServiceIsSetUp(files);
      var info := GetInfo();
      published := published + [info];
    }

    /** setStatus: assigns the status and publishes exactly one snapshot of it. */
    method SetStatus(status: BackendStatus, files: set<string>)
      modifies this`isSetUp, this`currentStatus, this`published
      ensures isSetUp == ServiceIsSetUp(files)
      ensures currentStatus == ResolvedStatus(status, isSetUp)
      ensures published == old(published) + [Info()]
    {
      currentStatus := status;
      UpdateStatus(files);
    }

    /** The part of the service's state that start and stop read and write. */
    ghost function State(): ServiceState
      reads this
    {
      ServiceState(desiredStatus, currentStatus, encapsulatedProcess, isSetUp, published, killed, spawnRequests)
    }

    /**
     * What start does to state s, given what the set-up probe sees (`files`), what
     * awaiting spawnAPIProcess gave (`spawn`) and what the health wait resolved to
     * (`healthy`).
     */
    function StartSpec(s: ServiceState, files: set<string>, spawn: SpawnOutcome, healthy: bool): (ServiceState, StartOutcome) {
      if s.desired == Stopped && s.current != Stopped then (s, Threw(StoppingError))
      else if s.current == Running then (s, Returned(Running))
      else if s.desired == Running then (s, Threw(AlreadyRequestedError))
      else
        // desiredStatus := running; setStatus("starting") publishes; one spawn request
        var published := s.published + [InfoWith(Starting, files)];
        match spawn
        case Spawned(p) =>
          var st := if healthy then Running else Failed;
          var killed := if healthy then s.killed else s.killed + [p];
          // the finally block publishes the outcome once
          (ServiceState(st, st, Some(p), ServiceIsSetUp(files), published + [InfoWith(st, files)], killed, s.spawnRequests + 1),
           Returned(st))
        case SpawnThrew(e) =>
          var killed := if s.process.Some? then s.killed + [s.process.value] else s.killed;
          (ServiceState(Failed, Failed, None, ServiceIsSetUp(files), published + [InfoWith(Failed, files)], killed, s.spawnRequests + 1),
           Threw(e))
    }

    /** What stop does to state s: only the "stopping" snapshot is published. */
    function StopSpec(s: ServiceState, files: set<string>): ServiceState {
      var killed := if s.process.Some? then s.killed + [s.process.value] else s.killed;
      ServiceState(Stopped, Stopped, None, ServiceIsSetUp(files), s.published + [InfoWith(Stopping, files)], killed, s.spawnRequests)
    }

    /** start. Its effect on the state is StartSpec; the lemmas below say what that means. */
    method Start(files: set<string>, spawn: SpawnOutcome, healthy: bool) returns (outcome: StartOutcome)
      requires Valid()
      modifies this`desiredStatus, this`currentStatus, this`encapsulatedProcess, this`isSetUp
      modifies this`published, this`killed, this`spawnRequests
      ensures Valid()
      ensures (State(), outcome) == StartSpec(old(State()), files, spawn, healthy)
    {
      if desiredStatus == Stopped && currentStatus != Stopped {
        return Threw(StoppingError);
      }
      if currentStatus == Running {
        return Returned(Running);
      }
      if desiredStatus == Running {
        return Threw(AlreadyRequestedError);
      }
      BeginStart(files);
      match spawn {
        case Spawned(p) => outcome := SettleSpawned(files, p, healthy);
        case SpawnThrew(e) => outcome := SettleThrown(files, e);
      }
    }

    /** start past its guards, up to the spawn: desire running, publish "starting", spawn. */
    method BeginStart(files: set<string>)
      requires Valid()
      modifies this`desiredStatus, this`currentStatus, this`isSetUp, this`published, this`spawnRequests
      ensures Valid()
      ensures State() == old(State()).(desired := Running, current := Starting, isSetUp := ServiceIsSetUp(files),
                                       published := old(published) + [InfoWith(Starting, files)],
                                       spawnRequests := old(spawnRequests) + 1)
    {
      desiredStatus := Running;
      SetStatus(Starting, files);
      spawnRequests := spawnRequests + 1;
    }

    /** The try block after a successful spawn, and the finally block. */
    method SettleSpawned(files: set<string>, p: ProcessHandle, healthy: bool) returns (outcome: StartOutcome)
      requires Valid() && isSetUp == ServiceIsSetUp(files) && desiredStatus == Running
      modifies this`desiredStatus, this`currentStatus, this`encapsulatedProcess, this`published, this`killed
      ensures Valid()
      ensures var st := if healthy then Running else Failed;
        && State() == old(State()).(desired := st, current := st, process := Some(p),
                                    published := old(published) + [InfoWith(st, files)],
                                    killed := if healthy then old(killed) else old(killed) + [p])
        && outcome == Returned(st)
    {
      encapsulatedProcess := Some(p);
      if healthy {
        currentStatus := Running;
      } else {
        currentStatus := Failed;
        desiredStatus := Failed;
        killed := killed + [p];
      }
      // finally: one snapshot of the outcome
      var info := GetInfo();
      published := published + [info];
      outcome := Returned(currentStatus);
    }

    /** The catch block after a thrown spawn, and the finally block; the error propagates. */
    method SettleThrown(files: set<string>, e: JsError) returns (outcome: StartOutcome)
      requires Valid() && isSetUp == ServiceIsSetUp(files)
      modifies this`desiredStatus, this`currentStatus, this`encapsulatedProcess, this`published, this`killed
      ensures Valid()
      ensures State() == old(State()).(desired := Failed, current := Failed, process := None,
                                       published := old(published) + [InfoWith(Failed, files)],
                                       killed := if old(encapsulatedProcess).Some? then old(killed) + [old(encapsulatedProcess).value] else old(killed))
      ensures outcome == Threw(e)
    {
      currentStatus := Failed;
      desiredStatus := Failed;
      if encapsulatedProcess.Some? {
        killed := killed + [encapsulatedProcess.value];
      }
      encapsulatedProcess := None;
      // finally: one snapshot of the outcome, then the error propagates
      var info := GetInfo();
      published := published + [info];
      outcome := Threw(e);
    }

    /** stop: accepted in every state. Its effect on the state is StopSpec. */
    method Stop(files: set<string>) returns (status: BackendStatus)
      requires Valid()
      modifies this`desiredStatus, this`currentStatus, this`encapsulatedProcess, this`isSetUp
      modifies this`published, this`killed
      ensures Valid()
      ensures status == Stopped
      ensures State() == StopSpec(old(State()), files)
    {
      desiredStatus := Stopped;
      SetStatus(Stopping, files);
      if encapsulatedProcess.Some? {
        killed := killed + [encapsulatedProcess.value];
      }
      // the fixed 1000 ms grace period passes here
      encapsulatedProcess := None;
      currentStatus := Stopped;
      status := Stopped;
    }

    /** A start the guards reject changes nothing. */
    lemma StartRejectedChangesNothing(s: ServiceState, files: set<string>, spawn: SpawnOutcome, healthy: bool)
      requires !StartAccepted(s.desired, s.current)
      ensures StartSpec(s, files, spawn, healthy).0 == s
      ensures StartSpec(s, files, spawn, healthy).1 ==
        if s.desired == Stopped && s.current != Stopped then Threw(StoppingError)
        else if s.current == Running then Returned(Running)
        else Threw(AlreadyRequestedError)
    {
    }

    /**
     * An accepted start requests one spawn and publishes exactly two snapshots:
     * "starting", then the final status, which is also what start resolves to.
     */
    lemma StartAcceptedPublishesTwice(s: ServiceState, files: set<string>, spawn: SpawnOutcome, healthy: bool)
      requires StartAccepted(s.desired, s.current)
      ensures var (r, outcome) := StartSpec(s, files, spawn, healthy);
        && r.spawnRequests == s.spawnRequests + 1
        && |r.published| == |s.published| + 2
        && r.published[..|s.published|] == s.published
        && r.published[|s.published|] == InfoWith(Starting, files)
        && r.published[|s.published| + 1] == InfoWith(r.current, files)
        && r.desired == r.current
        && (outcome.Returned? ==> outcome.status == r.current)
    {
    }

    /** After start the service is running exactly when it already was, or it was started and came up healthy. */
    lemma StartRunningIff(s: ServiceState, files: set<string>, spawn: SpawnOutcome, healthy: bool)
      ensures StartSpec(s, files, spawn, healthy).0.current == Running <==>
        s.current == Running || (StartAccepted(s.desired, s.current) && spawn.Spawned? && healthy)
    {
    }

    /** A failed start kills the process it was given, and a thrown spawn also forgets the tracked one. */
    lemma StartKills(s: ServiceState, files: set<string>, spawn: SpawnOutcome, healthy: bool)
      requires StartAccepted(s.desired, s.current)
      ensures var r := StartSpec(s, files, spawn, healthy).0;
        && (spawn.Spawned? && healthy ==> r.killed == s.killed && r.process == Some(spawn.process))
        && (spawn.Spawned? && !healthy ==> r.killed == s.killed + [spawn.process] && r.process == Some(spawn.process))
        && (spawn.SpawnThrew? ==> r.process == None && r.killed == s.killed + (if s.process.Some? then [s.process.value] else []))
    {
    }

    /** Starting a running service again is a no-op. */
    lemma StartRunningIsIdempotent(s: ServiceState, files: set<string>, spawn: SpawnOutcome, healthy: bool,
                                   files2: set<string>, spawn2: SpawnOutcome, healthy2: bool)
      requires StartSpec(s, files, spawn, healthy).1 == Returned(Running)
      ensures var r := StartSpec(s, files, spawn, healthy).0;
        StartSpec(r, files2, spawn2, healthy2) == (r, Returned(Running))
    {
    }

    /** start and stop keep desiredStatus among the statuses they assign. */
    lemma StartStopKeepDesirable(s: ServiceState, files: set<string>, spawn: SpawnOutcome, healthy: bool)
      requires IsDesirable(s.desired)
      ensures IsDesirable(StartSpec(s, files, spawn, healthy).0.desired)
      ensures IsDesirable(StopSpec(s, files).desired)
    {
    }

    /**
     * stop publishes only "stopping": observers are left with that snapshot although
     * the service is stopped, and the set-up flag it carries is the re-probed one.
     */
    lemma StopPublishesOnlyStopping(s: ServiceState, files: set<string>)
      ensures var r := StopSpec(s, files);
        && r.current == Stopped && r.desired == Stopped && r.process == None
        && r.published == s.published + [InfoWith(Stopping, files)]
        && r.published[|r.published| - 1].status != r.current
        && r.spawnRequests == s.spawnRequests
    {
    }

    /** A stopped service accepts a start; a second stop kills nothing further. */
    lemma StopThenStartOrStop(s: ServiceState, files: set<string>, files2: set<string>)
      ensures var r := StopSpec(s, files);
        && StartAccepted(r.desired, r.current)
        && StopSpec(r, files2).killed == r.killed
    {
    }

    /**
     * selectBestLevelZeroDevice: skips devices of unknown architecture and keeps the
     * first device of strictly highest priority. Reading the selected device back
     * (for the log line) throws when nothing was selected.
     */
    method SelectBestLevelZeroDevice(archOf: int -> string, priorityOf: string -> int) returns (r: Result<Device, JsError>)
      requires Valid() && selectedDeviceId == -1
      modifies this`selectedDeviceId
      ensures Valid()
      ensures r.Success? <==> !NoneSelectableAmong(allLevelZeroDevices, |allLevelZeroDevices|, archOf, priorityOf)
      ensures r.Success? ==>
        IsBestAmong(allLevelZeroDevices, |allLevelZeroDevices|, selectedDeviceId, archOf, priorityOf)
        && r.value == allLevelZeroDevices[selectedDeviceId]
      ensures r.Failure? ==> selectedDeviceId == -1 && r.error == UndefinedDeviceError
      ensures selectedDeviceId == BestIndex(allLevelZeroDevices, |allLevelZeroDevices|, archOf, priorityOf)
    {
      var ds := allLevelZeroDevices;
      var priority := NoPriority;
      for i := 0 to |ds|
        invariant selectedDeviceId == -1 ==> priority == NoPriority && NoneSelectableAmong(ds, i, archOf, priorityOf)
        invariant selectedDeviceId != -1 ==>
          IsBestAmong(ds, i, selectedDeviceId, archOf, priorityOf) && priority == Priority(ds[selectedDeviceId], archOf, priorityOf)
      {
        var device := ds[i];
        var arch := archOf(device.deviceId);
        if arch != UnknownArch {
          var newPriority := priorityOf(arch);
          if newPriority > priority {
            selectedDeviceId := device.id;
            priority := newPriority;
          }
        }
      }
      if selectedDeviceId == -1 {
        r := Failure(UndefinedDeviceError);
      } else {
        BestDeviceUnique(ds, selectedDeviceId, BestIndex(ds, |ds|, archOf, priorityOf), archOf, priorityOf);
        r := Success(ds[selectedDeviceId]);
      }
    }

    /** Runs the discovery helper, validates its output and selects a device (lines shared by both callers). */
    method DiscoverAndSelect(discovered: DiscoveryOutput, archOf: int -> string, priorityOf: string -> int)
      returns (r: Result<Device, JsError>)
      requires Valid() && selectedDeviceId == -1
      requires discovered.HelperPrinted? ==> DiscoveryWellNumbered(discovered.output)
      modifies this`allLevelZeroDevices, this`selectedDeviceId, this`discoveryRuns
      ensures Valid()
      ensures discoveryRuns == old(discoveryRuns) + 1
      ensures discovered.HelperFailed? ==>
        r == Failure(discovered.error) && unchanged(this`allLevelZeroDevices, this`selectedDeviceId)
      ensures discovered.HelperPrinted? && ParseLsLevelZeroOut(discovered.output).Failure? ==>
        r == Failure(SchemaValidationError) && unchanged(this`allLevelZeroDevices, this`selectedDeviceId)
      ensures discovered.HelperPrinted? && ParseLsLevelZeroOut(discovered.output).Success? ==>
        && allLevelZeroDevices == ParseLsLevelZeroOut(discovered.output).value
        && (r.Success? <==> !NoneSelectableAmong(allLevelZeroDevices, |allLevelZeroDevices|, archOf, priorityOf))
        && (r.Success? ==>
              IsBestAmong(allLevelZeroDevices, |allLevelZeroDevices|, selectedDeviceId, archOf, priorityOf)
              && r.value == allLevelZeroDevices[selectedDeviceId])
        && (r.Failure? ==> selectedDeviceId == -1 && r.error == UndefinedDeviceError)
      ensures var d := Discovery(discovered, archOf, priorityOf);
        && (r.Success? <==> d.Success?)
        && (d.Success? ==> allLevelZeroDevices == d.value.0 && selectedDeviceId == d.value.1)
        && (d.Failure? ==> r.error == d.error)
    {
      discoveryRuns := discoveryRuns + 1;
      match discovered {
        case HelperFailed(e) =>
          r := Failure(e);
        case HelperPrinted(v) =>
          var parsed := ParseLsLevelZeroOut(v);
          if parsed.Failure? {
            r := Failure(SchemaValidationError);
          } else {
            allLevelZeroDevices := parsed.value;
            r := SelectBestLevelZeroDevice(archOf, priorityOf);
          }
      }
    }

    /**
     * getDeviceSelectorEnv: discovery runs only while no device is selected; the
     * environment always names the selected device.
     */
    method GetDeviceSelectorEnv(discovered: DiscoveryOutput, archOf: int -> string, priorityOf: string -> int)
      returns (r: Result<map<string, string>, JsError>)
      requires Valid()
      requires discovered.HelperPrinted? ==> DiscoveryWellNumbered(discovered.output)
      modifies this`allLevelZeroDevices, this`selectedDeviceId, this`discoveryRuns
      ensures Valid()
      ensures old(selectedDeviceId) != -1 ==>
        unchanged(this) && selectedDeviceId >= 0 && r == Success(DeviceSelectorEnv(selectedDeviceId))
      ensures old(selectedDeviceId) == -1 ==> discoveryRuns == old(discoveryRuns) + 1
      ensures r.Success? ==> selectedDeviceId >= 0 && r.value == DeviceSelectorEnv(selectedDeviceId)
      ensures r.Success? && old(selectedDeviceId) == -1 ==>
        IsBestAmong(allLevelZeroDevices, |allLevelZeroDevices|, selectedDeviceId, archOf, priorityOf)
      ensures r.Failure? ==> old(selectedDeviceId) == -1 && selectedDeviceId == -1
      ensures old(selectedDeviceId) == -1 ==>
        var d := Discovery(discovered, archOf, priorityOf);
        && (r.Success? <==> d.Success?)
        && (d.Success? ==> allLevelZeroDevices == d.value.0 && selectedDeviceId == d.value.1)
        && (d.Success? ==> r.value == DeviceSelectorEnv(d.value.1))
        && (d.Failure? ==> r.error == d.error)
    {
      if selectedDeviceId == -1 {
        var selected := DiscoverAndSelect(discovered, archOf, priorityOf);
        if selected.Failure? {
          return Failure(selected.error);
        }
      }
      r := Success(DeviceSelectorEnv(selectedDeviceId));
    }

    /**
     * commonSetupSteps.detectDevice: while no device is selected, installs the helper
     * (`tools` is that step's failure, if any) and runs discovery; then reports the
     * architecture of the selected device. Every failure is rethrown wrapped.
     */
    method DetectDevice(tools: Option<JsError>, discovered: DiscoveryOutput, archOf: int -> string, priorityOf: string -> int)
      returns (r: Result<string, JsError>)
      requires Valid()
      requires discovered.HelperPrinted? ==> DiscoveryWellNumbered(discovered.output)
      modifies this`allLevelZeroDevices, this`selectedDeviceId, this`discoveryRuns
      ensures Valid()
      ensures old(selectedDeviceId) != -1 ==> unchanged(this)
      ensures r == DetectSpec(old(selectedDeviceId), old(allLevelZeroDevices), tools, discovered, archOf, priorityOf)
      ensures old(selectedDeviceId) == -1 && tools.Some? ==> unchanged(this)
      ensures old(selectedDeviceId) == -1 && tools.None? ==> discoveryRuns == old(discoveryRuns) + 1
      ensures old(selectedDeviceId) == -1 ==>
        var d := Discovery(discovered, archOf, priorityOf);
        && (r.Success? <==> tools.None? && d.Success?)
        && (r.Failure? ==> r.error == Wrapped(DetectFailurePrefix, if tools.Some? then tools.value else d.error))
        && (r.Success? ==> allLevelZeroDevices == d.value.0 && selectedDeviceId == d.value.1)
      ensures r.Success? ==>
        0 <= selectedDeviceId < |allLevelZeroDevices|
        && r.value == archOf(allLevelZeroDevices[selectedDeviceId].deviceId)
      ensures r.Failure? ==> selectedDeviceId == -1
      ensures (allLevelZeroDevices, selectedDeviceId)
        == AfterDetect(old(selectedDeviceId), old(allLevelZeroDevices), tools, discovered, archOf, priorityOf)
      ensures discoveryRuns == old(discoveryRuns) + DetectRuns(old(selectedDeviceId), tools)
    {
      if selectedDeviceId == -1 {
        if tools.Some? {
          return Failure(Wrapped(DetectFailurePrefix, tools.value));
        }
        var selected := DiscoverAndSelect(discovered, archOf, priorityOf);
        if selected.Failure? {
          return Failure(Wrapped(DetectFailurePrefix, selected.error));
        }
      }
      var selectedDevice := allLevelZeroDevices[selectedDeviceId];
      r := Success(archOf(selectedDevice.deviceId));
    }
  }

  // ---------------------------------------------------------------------------
  // Common setup steps. Each takes the outcome of its file-system or process work
  // (None: it worked; Some(e): it threw e) and gives what the step returns or throws.

  /** copyArchetypePythonEnv: a missing prototype throws unwrapped; a failed clone is wrapped. */
  function CopyArchetypePythonEnv(prototypeCheck: Option<JsError>, clone: Option<JsError>, targetDir: string)
    : (r: Result<string, JsError>)
    ensures r.Success? <==> prototypeCheck.None? && clone.None?
    ensures r.Success? ==> r.value == targetDir
    ensures prototypeCheck.Some? ==> r == Failure(prototypeCheck.value)
    ensures prototypeCheck.None? && clone.Some? ==>
      r == Failure(Wrapped("Failure during set up of workspace. ", clone.value))
  {
    if prototypeCheck.Some? then Failure(prototypeCheck.value)
    else if clone.Some? then Failure(Wrapped("Failure during set up of workspace. ", clone.value))
    else Success(targetDir)
  }

  /**
   * The pip arguments of uvPipInstallRequirementsTxtStep: a python module run
   * (pip itself, or pip through uv) that installs the requirements file named
   * after "-r"; through uv, the best match across indexes is allowed.
   */
  function RequirementsInstallArgs(requirementsTextPath: string, disableUv: bool): (args: seq<string>)
    ensures |args| == if disableUv then 5 else 8
    ensures args[0] == "-m" && args[1] == (if disableUv then "pip" else "uv")
    ensures !disableUv ==> args[2] == "pip"
    ensures args[if disableUv then 2 else 3] == "install"
    ensures var r := if disableUv then 3 else 4; args[r..r + 2] == ["-r", requirementsTextPath]
    ensures !disableUv ==> args[6..] == ["--index-strategy", "unsafe-best-match"]
  {
    if disableUv then ["-m", "pip", "install", "-r", requirementsTextPath]
    else ["-m", "uv", "pip", "install", "-r", requirementsTextPath, "--index-strategy", "unsafe-best-match"]
  }

  /** The uv command line is the plain pip one run through uv, with the index strategy appended. */
  lemma UvArgsWrapPipArgs(requirementsTextPath: string)
    ensures RequirementsInstallArgs(requirementsTextPath, false) ==
      ["-m", "uv"] + RequirementsInstallArgs(requirementsTextPath, true)[1..] + ["--index-strategy", "unsafe-best-match"]
  {
  }

  /**
   * uvPipInstallRequirementsTxtStep: Success(None) when the step is skipped,
   * Success(Some(args)) when it ran pip with args, a wrapped error otherwise.
   */
  function UvPipInstallRequirementsTxtStep(
    pythonEnvDir: string, requirementsTextPath: string,
    skipOnMissingRequirementsTxt: bool, disableUv: bool,
    requirementsExist: bool, run: Option<JsError>)
    : (r: Result<Option<seq<string>>, JsError>)
    ensures (skipOnMissingRequirementsTxt && !requirementsExist) ==> r == Success(None)
    ensures !(skipOnMissingRequirementsTxt && !requirementsExist) ==>
      (run.None? ==> r == Success(Some(RequirementsInstallArgs(requirementsTextPath, disableUv))))
      && (run.Some? ==> r == Failure(Wrapped("Failed to install python dependencies for " + pythonEnvDir + ". ", run.value)))
  {
    if skipOnMissingRequirementsTxt && !requirementsExist then Success(None)
    else if run.Some? then Failure(Wrapped("Failed to install python dependencies for " + pythonEnvDir + ". ", run.value))
    else Success(Some(RequirementsInstallArgs(requirementsTextPath, disableUv)))
  }

  /** The pip arguments of uvInstallDependencyStep; an empty extra index is falsy and adds nothing. */
  function DependencyInstallArgs(dependency: string, extraIndex: Option<string>): (args: seq<string>)
    ensures |args| >= 4 && args[..4] == ["-m", "pip", "install", dependency]
    ensures (extraIndex.Some? && extraIndex.value != "") ==> args[4..] == ["--extra-index-url", extraIndex.value]
    ensures !(extraIndex.Some? && extraIndex.value != "") ==> |args| == 4
  {
    var extraIndexArgs := if extraIndex.Some? && extraIndex.value != "" then ["--extra-index-url", extraIndex.value] else [];
    ["-m", "pip", "install", dependency] + extraIndexArgs
  }

  /** uvInstallDependencyStep: the pip arguments it ran, or a wrapped error. */
  function UvInstallDependencyStep(pythonEnvDir: string, dependency: string, extraIndex: Option<string>, run: Option<JsError>)
    : (r: Result<seq<string>, JsError>)
    ensures run.None? ==> r == Success(DependencyInstallArgs(dependency, extraIndex))
    ensures run.Some? ==>
      r == Failure(Wrapped("Failed to install of dependency " + dependency + " for " + pythonEnvDir + ". ", run.value))
  {
    if run.Some? then Failure(Wrapped("Failed to install of dependency " + dependency + " for " + pythonEnvDir + ". ", run.value))
    else Success(DependencyInstallArgs(dependency, extraIndex))
  }

  /** moveToFinalTarget: succeeds or throws a wrapped error naming both directories. */
  function MoveToFinalTarget(src: string, target: string, move: Option<JsError>): (r: Result<(), JsError>)
    ensures r.Success? <==> move.None?
    ensures move.Some? ==> r == Failure(Wrapped("Failure to rename " + src + " to " + target + ". ", move.value))
  {
    if move.Some? then Failure(Wrapped("Failure to rename " + src + " to " + target + ". ", move.value))
    else Success(())
  }
}
