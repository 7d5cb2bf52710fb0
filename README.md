# AI Playground service core, modelled in Dafny

AI Playground is a desktop application. It starts local Python inference backends and drives them from a web UI. This project models, and proves properties of, the parts of it that make decisions.

- **Backend supervisor** (`ApiService`, `LevelZero`):
  - the status state machine of a long-lived Python backend: `start`, `stop`, `setStatus`, `updateStatus` and `get_info`;
  - every snapshot it publishes to the window;
  - the memoised choice of an Intel Level Zero device, and the schema the discovery output must meet;
  - the common set-up steps: cloning the archetype environment, pip/uv install command lines, and moving the environment into place.
- **llama.cpp backend** (`LlamaCppBackend`):
  - the four-stage set-up pipeline and the progress records it yields;
  - the final status it publishes;
  - how the worker's environment is merged from the parent's, the SYCL settings and the device selector.
- **ComfyUI store** (`ComfyUi`):
  - finding the workflow nodes a generation setting targets, and writing the setting into the first of them;
  - the reducer that folds ComfyUI websocket text messages into the image-generation state.
- **OpenVINO SSE adapter** (`OpenVinoAdapter`):
  - building the chat history;
  - classifying exceptions;
  - the token counter and stop flag of the streaming callback;
  - the order of the messages a conversation run enqueues;
  - the retrieval-augmented prompt.
- **llama.cpp RAG database** (`LlamaRag`):
  - MD5-keyed de-duplication of indexed files;
  - case-insensitive loader dispatch on the file extension;
  - the bookkeeping of document ids and of the saved index;
  - the guards and result shape of a query;
  - loading the saved index.

Shared modules hold the support code:

- `Wrappers`: `Option` and `Result`.
- `Strings`: decimal rendering, `join` and ASCII lower-casing.
- `Json`: parsed JSON values and JavaScript truthiness.

**How the model is built:**

- Code that updates objects in place is modelled as classes whose methods modify their fields: `PythonApiService`, `LlamaCppBackendService`, `ProcessEnvironment`, `ApiWorkflow`, `ImageGenerationStore`, `SseAdapter`, `LlmInterface` and `EmbeddingDatabase`. Loops that update state are loops in the model, with invariants; the early-return searches of comfyUi.ts:293-306 are recursive functions.
- Each state-changing method is tied to a specification function of the old state: `StartSpec`, `StopSpec`, `SetupTrace`/`RunOf`, `Reduce`, `RunMessages` and `AddSpec`. The properties the source promises are proved as lemmas about those functions.
- Everything the code gets from outside becomes an input:
  - the outcome of each process spawn, file check and copy, and the health check;
  - what the discovery helper prints;
  - the architecture and priority tables;
  - the LLM's outputs and exceptions;
  - the MD5 digest, the loaders' split documents, the vector store's relevance ranking, and the UUID stream.
- Publishing to the window is an append to the ghost sequence `published`. Killing a process is an append to the ghost sequence `killed`.

**Where the code does something other than one might expect, the model follows the code:**

- One might expect the process handle to be set exactly while the service is starting, running or stopping. In the code, a start whose health check fails sets the status to `failed` but keeps the (killed) process in `encapsulatedProcess` (apiService.ts:124-129). `StartKills` states this.
- One might expect every path to publish a final snapshot. `stop` publishes only the `stopping` snapshot and then assigns `stopped` without publishing (apiService.ts:146-157). `StopPublishesOnlyStopping` states this.
- The rejections of `start` are plain `Error`s with fixed messages, not a dedicated error type (apiService.ts:104-112). The model uses those messages.
- `uvInstallDependencyStep` runs plain `pip`, not `uv`, despite its name (apiService.ts:341). The model builds the command the code builds.

## Model

| member | source | states |
|---|---|---|
| LevelZero.ParseLsLevelZeroOut | WebUI/electron/subprocesses/apiService.ts:13-14 | The discovery output is accepted exactly when it is an array of at least one `{id: number, name: string, device_id: number}` object. Parsed devices keep the helper's order. A non-array and an empty array are rejected with distinct errors. |
| LevelZero.FirstMalformed | WebUI/electron/subprocesses/apiService.ts:13 | Finds the first element that fails the device schema, with every earlier element valid; None exactly when all elements are valid. |
| LevelZero.ParseEncodeRoundTrip | WebUI/electron/subprocesses/apiService.ts:13-14 | Every non-empty device list, printed as JSON, passes validation and parses back to itself. |
| LevelZero.BestDeviceUnique | WebUI/electron/subprocesses/apiService.ts:225-238 | At most one device is the best one: highest priority among known-architecture devices, ties going to the first seen. |
| LevelZero.BestIndex | WebUI/electron/subprocesses/apiService.ts:225-238 | The reference selection over a prefix: -1 exactly when no device there has a known architecture and a priority above -1, the loop's starting priority. Otherwise it is the index of the best such device: highest priority, ties going to the first seen. |
| LevelZero.DeviceSelectorEnv | WebUI/electron/subprocesses/apiService.ts:286 | The selector environment has the single key ONEAPI_DEVICE_SELECTOR. Its value is `level_zero:` followed by decimal digits whose value is the device id. |
| LevelZero.DeviceSelectorEnvInjective | WebUI/electron/subprocesses/apiService.ts:286 | Different device ids never give the same selector environment. |
| ApiService.ResolvedStatus | WebUI/electron/subprocesses/apiService.ts:87-90 | The resolved status is never uninitialised. An uninitialised status becomes notYetStarted if set up, else notInstalled; every other status is kept. |
| ApiService.ResolvedStatusIdempotent | WebUI/electron/subprocesses/apiService.ts:87-90 | Resolving the status twice gives the same result as resolving it once. |
| ApiService.PythonApiService.constructor | WebUI/electron/subprocesses/apiService.ts:62-73 | A new service has both statuses uninitialised, no process, no device list and no selected device (-1). Its base URL is `http://127.0.0.1:<port>`, and nothing has been published. |
| ApiService.PythonApiService.GetInfo | WebUI/electron/subprocesses/apiService.ts:87-99 | get_info resolves an uninitialised status and returns the snapshot of the current fields. |
| ApiService.PythonApiService.UpdateStatus | WebUI/electron/subprocesses/apiService.ts:82-85 | updateStatus re-probes the set-up flag and publishes exactly one snapshot of the resolved state. |
| ApiService.PythonApiService.SetStatus | WebUI/electron/subprocesses/apiService.ts:77-80 | setStatus assigns the status (resolved) and publishes exactly one snapshot of it. |
| ApiService.PythonApiService.Start | WebUI/electron/subprocesses/apiService.ts:103-141 | start changes the service exactly as StartSpec says: the guards, the spawn outcome, the health outcome, the kill and what is published. It keeps desiredStatus among the statuses start and stop assign. |
| ApiService.PythonApiService.BeginStart | WebUI/electron/subprocesses/apiService.ts:114-115 | An accepted start first desires running, publishes the `starting` snapshot and requests one spawn, changing nothing else. |
| ApiService.PythonApiService.SettleSpawned | WebUI/electron/subprocesses/apiService.ts:119-129 | After a spawn, the process is tracked. Healthy gives running; unhealthy gives failed/failed with the process killed. The finally block publishes one snapshot, and start resolves to the status. |
| ApiService.PythonApiService.SettleThrown | WebUI/electron/subprocesses/apiService.ts:130-139 | A thrown spawn gives failed/failed and kills and forgets any tracked process. One snapshot is published, and the same error is rethrown. |
| ApiService.PythonApiService.Stop | WebUI/electron/subprocesses/apiService.ts:144-158 | stop is accepted in every state and returns stopped. Its effect is StopSpec: both statuses stopped, no process, the old one killed, one `stopping` snapshot published. |
| ApiService.PythonApiService.StartRejectedChangesNothing | WebUI/electron/subprocesses/apiService.ts:104-112 | A start the guards reject changes no field and publishes nothing. The stopping check comes before the running check, which comes before the already-requested check. |
| ApiService.PythonApiService.StartAcceptedPublishesTwice | WebUI/electron/subprocesses/apiService.ts:114-140 | An accepted start requests exactly one spawn and publishes exactly two snapshots: `starting`, then the final status. Desired and current status agree afterwards. |
| ApiService.PythonApiService.StartRunningIff | WebUI/electron/subprocesses/apiService.ts:103-141 | After start the service is running exactly when it already was, or when the start was accepted, the spawn succeeded and the health check passed. |
| ApiService.PythonApiService.StartKills | WebUI/electron/subprocesses/apiService.ts:119-135 | A healthy start kills nothing. An unhealthy one kills the new process but keeps tracking it. A thrown spawn kills the previously tracked process, if any, and clears the handle. |
| ApiService.PythonApiService.StartRunningIsIdempotent | WebUI/electron/subprocesses/apiService.ts:107-109 | Once start has returned running, any further start is a no-op that returns running. |
| ApiService.PythonApiService.StartStopKeepDesirable | WebUI/electron/subprocesses/apiService.ts:103-158 | start and stop only ever leave desiredStatus as uninitialised, running, stopped or failed. |
| ApiService.PythonApiService.StopPublishesOnlyStopping | WebUI/electron/subprocesses/apiService.ts:144-158 | stop publishes only the `stopping` snapshot. The last published status therefore differs from the final `stopped`, and no spawn is requested. |
| ApiService.PythonApiService.StopThenStartOrStop | WebUI/electron/subprocesses/apiService.ts:104-158 | After stop, a start passes the guards, and a second stop kills nothing further. |
| ApiService.PythonApiService.SelectBestLevelZeroDevice | WebUI/electron/subprocesses/apiService.ts:225-241 | The loop selects the best device: known architecture, priority above the starting -1 and maximal, and the first of equals. The selection equals the reference BestIndex. It succeeds exactly when such a device exists. Otherwise (every device has an unknown architecture or priority -1 or lower) the selection stays -1 and the read of `.id` throws a TypeError. |
| ApiService.PythonApiService.DiscoverAndSelect | WebUI/electron/subprocesses/apiService.ts:216-241 | One discovery run, which agrees with Discovery. A failed run or a failed parse propagates its error with no field changed. A valid output replaces the device list and selects the best device; with no selectable device the run fails. |
| ApiService.Discovery | WebUI/electron/subprocesses/apiService.ts:216-241 | A discovery run succeeds exactly when the helper printed, the output meets the schema and some known-architecture device has priority above -1. It then gives the parsed list and its best device. A helper failure gives its own error, a schema failure the validation error, and no selectable device the TypeError. |
| ApiService.PythonApiService.GetDeviceSelectorEnv | WebUI/electron/subprocesses/apiService.ts:280-287 | With a device already selected, nothing changes and the selector names that device. Otherwise discovery runs exactly once. The call succeeds exactly when Discovery does: the selector then names the best device and the list and selection are stored; on failure Discovery's error is thrown. |
| ApiService.PythonApiService.DetectDevice | WebUI/electron/subprocesses/apiService.ts:255-278 | The result is DetectSpec, and the device list and selection become AfterDetect with one discovery run added exactly when it reaches the helper. With a device already selected, nothing runs and its architecture is reported. Otherwise a failed tool install changes nothing. Success holds exactly when the tools installed and Discovery succeeded, and reports the best device's architecture. Every failure is the first error wrapped in "Failure to identify intel hardware." and leaves no device selected. |
| ApiService.DetectMemoised | WebUI/electron/subprocesses/apiService.ts:255-278 | After a successful detection a device is selected with the reported architecture. Detecting again, whatever the helper would now give, runs no discovery, changes nothing and reports the same. |
| ApiService.DetectFailureRetries | WebUI/electron/subprocesses/apiService.ts:255-278 | A failed detection leaves no device selected, so the next detection runs discovery again. |
| ApiService.CopyArchetypePythonEnv | WebUI/electron/subprocesses/apiService.ts:289-303 | Succeeds with the target directory exactly when the prototype exists and the clone worked. A missing prototype throws unwrapped; a failed clone throws wrapped. |
| ApiService.RequirementsInstallArgs | WebUI/electron/subprocesses/apiService.ts:325 | The command runs `python -m pip install`, or `python -m uv pip install` when uv is enabled, and names the requirements file right after `-r`. With uv it ends with the unsafe-best-match index strategy. |
| ApiService.UvArgsWrapPipArgs | WebUI/electron/subprocesses/apiService.ts:325 | The uv command line is the plain pip command line run through uv, with the index strategy appended. |
| ApiService.UvPipInstallRequirementsTxtStep | WebUI/electron/subprocesses/apiService.ts:319-334 | A missing requirements file is skipped only when skipping is requested. Otherwise pip runs with RequirementsInstallArgs, and a failure is wrapped with the environment directory. |
| ApiService.DependencyInstallArgs | WebUI/electron/subprocesses/apiService.ts:340-341 | The command always starts `-m pip install <dependency>`. It adds `--extra-index-url <index>` exactly when a non-empty extra index is given. |
| ApiService.UvInstallDependencyStep | WebUI/electron/subprocesses/apiService.ts:336-347 | Runs DependencyInstallArgs, or fails with the error wrapped with the dependency and the environment directory. |
| ApiService.MoveToFinalTarget | WebUI/electron/subprocesses/apiService.ts:349-362 | Succeeds exactly when the move worked; a failure is wrapped with both directory names. |
| LlamaCppBackend.StepLabelInjective | WebUI/electron/subprocesses/llamaCppBackendService.ts:31-57 | The step labels of the progress records are pairwise distinct, so a record's step identifies its stage. |
| LlamaCppBackend.CompletedStages | WebUI/electron/subprocesses/llamaCppBackendService.ts:33-50 | k completed stages yield exactly 2k records. |
| LlamaCppBackend.CompletedStagesAt | WebUI/electron/subprocesses/llamaCppBackendService.ts:33-50 | Stage i's begin record sits at position 2i and its done record at 2i+1. |
| LlamaCppBackend.CompletedStagesExecuting | WebUI/electron/subprocesses/llamaCppBackendService.ts:31-50 | Every record of a completed stage, including its completion record, has status executing and is not an end record. |
| LlamaCppBackend.SetupTraceShape | WebUI/electron/subprocesses/llamaCppBackendService.ts:31-57 | The trace opens with the start record. Every record but the last is executing. Exactly the last is the end record, and it reports success exactly when every stage completed. On failure it carries the error. |
| LlamaCppBackend.SetupTraceStageOrder | WebUI/electron/subprocesses/llamaCppBackendService.ts:33-50 | Completed stages appear in pipeline order, each begun before it is done. |
| LlamaCppBackend.SetupTraceFailedStage | WebUI/electron/subprocesses/llamaCppBackendService.ts:53-57 | On failure, the record just before the end record announces the stage that failed. |
| LlamaCppBackend.RunOf | WebUI/electron/subprocesses/llamaCppBackendService.ts:30-58 | The pipeline's outcome is always well formed: either all four stages completed with no error, or fewer completed and an error ended the run. |
| LlamaCppBackend.RunOfSucceedsIff | WebUI/electron/subprocesses/llamaCppBackendService.ts:30-58 | Set-up succeeds exactly when every step worked: the prototype, the clone and detection, both files present, both installs and the move. It then reports the detected architecture. |
| LlamaCppBackend.FirstSetupSucceedsIff | WebUI/electron/subprocesses/llamaCppBackendService.ts:30-58 | On a service with no device selected yet, set-up succeeds exactly when the prototype, clone and tool install work, Discovery finds a selectable device, both files are present, and both installs and the move work. |
| LlamaCppBackend.FirstSetupSelectsBest | WebUI/electron/subprocesses/llamaCppBackendService.ts:30-58 | A successful first set-up ran discovery once and stored Discovery's device list and best device. A set-up whose clone worked but whose detection failed leaves no device selected. |
| LlamaCppBackend.LlamaCppBackendService.constructor | WebUI/electron/subprocesses/llamaCppBackendService.ts:8-23 | The service's python.exe lies in `llama-cpp-env`. isSetUp holds exactly when that file exists (serviceIsSetUp), and the service is not required. |
| LlamaCppBackend.LlamaCppBackendService.SetUp | WebUI/electron/subprocesses/llamaCppBackendService.ts:25-59 | set_up publishes `installing` and yields exactly SetupTrace of the run, whose detection outcome is DetectSpec of the service's old device fields and the discovery inputs. It then publishes notYetStarted on success or installationFailed on failure, never throwing, with isSetUp re-probed. The device list, selection and discovery count become DevicesAfterSetUp: unchanged after a failed clone, otherwise as detectDevice leaves them. It leaves desired status, process and kills alone. |
| LlamaCppBackend.LlamaCppBackendService.InstallAndConclude | WebUI/electron/subprocesses/llamaCppBackendService.ts:30-57 | After `installing`, the try block and its ending yield SetupTrace of the run and publish its final status once, with the device fields as DevicesAfterSetUp says. |
| LlamaCppBackend.LlamaCppBackendService.Conclude | WebUI/electron/subprocesses/llamaCppBackendService.ts:51-57 | The end of set_up adds the success or failure record and publishes the matching final status exactly once, with isSetUp re-probed. |
| LlamaCppBackend.LlamaCppBackendService.RunStages | WebUI/electron/subprocesses/llamaCppBackendService.ts:30-50 | The try block runs the stages in order: clone, detect, check files, install the wheel, install the requirements, move. The first failure stops it. The run is RunOf of the step outcomes with DetectSpec as the detection, and the records are the begin/done records so far. The device fields become DevicesAfterSetUp of the old ones: a failed clone touches none, and otherwise they are what detectDevice leaves. |
| LlamaCppBackend.LlamaCppBackendService.InstallStages | WebUI/electron/subprocesses/llamaCppBackendService.ts:41-49 | After detection, the file checks, the two installs and the move give exactly RunOf's outcome for the detected architecture, with the matching begin/done records. |
| LlamaCppBackend.LlamaCppBackendService.SpawnAPIProcess | WebUI/electron/subprocesses/llamaCppBackendService.ts:61-73 | The worker's environment becomes SpawnEnv of the inherited one and the selected device. python.exe runs `llama_web_api.py --port <port>` in the service directory. With no device selected before, the spawn proceeds exactly when Discovery succeeds, stores its list and best device, and otherwise throws Discovery's error. A failed device selection changes no variable. |
| LlamaCppBackend.ProcessEnvironment.Assign | WebUI/electron/subprocesses/llamaCppBackendService.ts:72 | Object.assign sets every additional variable, overriding the inherited value. |
| LlamaCppBackend.SpawnEnvContents | WebUI/electron/subprocesses/llamaCppBackendService.ts:62-72 | The worker sees the selected device and the three fixed SYCL and encoding values whatever the parent had. Every other inherited variable is unchanged, and nothing else is added. |
| LlamaCppBackend.SpawnEnvIdempotent | WebUI/electron/subprocesses/llamaCppBackendService.ts:62-72 | Merging the same variables twice gives the same environment as merging once. |
| ComfyUi.KeysWhere | WebUI/src/assets/js/store/comfyUi.ts:289-292 | A filtered key list is never longer than the workflow. |
| ComfyUi.KeysWhereMembership | WebUI/src/assets/js/store/comfyUi.ts:289-292 | A key is returned exactly when some entry with that key matches the criterion. |
| ComfyUi.KeysWhereAppend | WebUI/src/assets/js/store/comfyUi.ts:289-292 | Lookups distribute over concatenation, so keys come out in entry order. |
| ComfyUi.KeysWhereFirst | WebUI/src/assets/js/store/comfyUi.ts:289-292 | The first key returned is that of the first matching entry. |
| ComfyUi.FindKeysSpec | WebUI/src/assets/js/store/comfyUi.ts:289-292 | findKeysByTitle returns exactly the keys whose `_meta.title` is the title, and findKeysByClassType exactly those whose `class_type` matches. |
| ComfyUi.FirstNonEmptyKeys | WebUI/src/assets/js/store/comfyUi.ts:293-300 | findKeysByInputsName returns the node list of the first mapped input name, "text" skipped, that some node defines; earlier names match no node. It returns [] exactly when no non-text name matches. |
| ComfyUi.PromptsHaveNoInputsNameMatch | WebUI/src/assets/js/store/comfyUi.ts:282-283 | prompt and negativePrompt can never be found by input name, because their only input name, "text", is skipped. |
| ComfyUi.IndexOf | WebUI/src/assets/js/store/comfyUi.ts:303 | `workflow[key]` is the first entry with that key, or nothing when no entry has it. |
| ComfyUi.IndexOfSameKeys | WebUI/src/assets/js/store/comfyUi.ts:303 | Two workflows with the same keys, position by position, resolve every key to the same entry. |
| ComfyUi.FirstTruthyIndex | WebUI/src/assets/js/store/comfyUi.ts:302-305 | The position of the first name whose input is truthy on the node, with all earlier names falsy or undefined; None exactly when none is truthy. |
| ComfyUi.GetInputNameBySettingAndKey | WebUI/src/assets/js/store/comfyUi.ts:301-306 | The result is the first mapped input name whose value is truthy on the node. It is "" exactly when no mapped input is truthy. |
| ComfyUi.SetInputChangesOneInput | WebUI/src/assets/js/store/comfyUi.ts:318 | Writing one input of one node changes that input to the value and nothing else: no other node, no other input, no key set, no title or class type. |
| ComfyUi.WithSettingAsWrittenChangesAtMostOneInput | WebUI/src/assets/js/store/comfyUi.ts:307-320 | With no target the workflow is unchanged, and title matches win over input-name matches. Otherwise the input written is exactly GetInputNameBySettingAndKey of the first target: when that input is defined, the workflow becomes SetInput of it with the value, and otherwise it is unchanged. |
| ComfyUi.FirstDefinedIndex | WebUI/src/assets/js/store/comfyUi.ts:317 | The position of the first mapped name defined on the node, with all earlier names undefined. |
| ComfyUi.WithSettingApplies | WebUI/src/assets/js/store/comfyUi.ts:307-320 | Corrected templating: whenever the first target node defines one of the setting's inputs, the value is written into the first such input. |
| ComfyUi.FirstIndicesAgree | WebUI/src/assets/js/store/comfyUi.ts:301-306 | When every defined mapped input is truthy, the first defined input and the first truthy input coincide. |
| ComfyUi.WithSettingAgreesOnTruthyInputs | WebUI/src/assets/js/store/comfyUi.ts:301-320 | The corrected and the as-written templating agree whenever the defined inputs are truthy, so the correction changes only the falsy case. |
| ComfyUi.EmptyPromptIsNotOverwritten | WebUI/src/assets/js/store/comfyUi.ts:301-320 | A prompt node whose text is empty is left unchanged by the code as written, while the corrected version writes the prompt (see Findings). |
| ComfyUi.ApiWorkflow.ModifySettingInWorkflow | WebUI/src/assets/js/store/comfyUi.ts:307-320 | The in-place update leaves the workflow equal to the as-written templating of its old entries. |
| ComfyUi.LoaderNodesSpec | WebUI/src/assets/js/store/comfyUi.ts:199-203 | A key is a loader node exactly when its node's class type is one of the three loader classes. |
| ComfyUi.KindOf | WebUI/src/assets/js/store/comfyUi.ts:82 | A recognised message kind is reported only for its own type string. |
| ComfyUi.KindOfTypeName | WebUI/src/assets/js/store/comfyUi.ts:82-123 | Every handled type string is recognised as its own kind. |
| ComfyUi.OutputImages | WebUI/src/assets/js/store/comfyUi.ts:101 | The filtered images are the images whose type is "output", in order, each as often as it occurs, and nothing else. |
| ComfyUi.OutputImagesAppend | WebUI/src/assets/js/store/comfyUi.ts:101 | Filtering distributes over concatenation, so output images keep their relative order. |
| ComfyUi.ImageUrls | WebUI/src/assets/js/store/comfyUi.ts:103 | There is one view URL per output image. |
| ComfyUi.ImageUrlsAt | WebUI/src/assets/js/store/comfyUi.ts:103 | URL j is the view URL of image j. |
| ComfyUi.DestUpdatesAt | WebUI/src/assets/js/store/comfyUi.ts:102-105 | Output image j of the batch is sent to slot idx + j with its view URL. |
| ComfyUi.ReduceExecuted | WebUI/src/assets/js/store/comfyUi.ts:100-107 | "executed" advances generateIdx by the number of output images. It appends one destination update per image, in order, at consecutive slots, and changes nothing else. |
| ComfyUi.ReduceLifecycle | WebUI/src/assets/js/store/comfyUi.ts:108-123 | execution_start sets processing; execution_success, execution_error and execution_interrupted clear it; status, execution_cached and unknown types change nothing. |
| ComfyUi.ReduceExecuting | WebUI/src/assets/js/store/comfyUi.ts:90-99 | "executing" changes only currentState. It becomes load_model exactly when the node is a loader node, and generating otherwise. |
| ComfyUi.ReduceProgress | WebUI/src/assets/js/store/comfyUi.ts:85-89 | "progress" always switches to generating and touches neither processing nor the images. Without data the step text is kept. |
| ComfyUi.ImageGenerationStore.HandleTextMessage | WebUI/src/assets/js/store/comfyUi.ts:81-124 | The handler's update of the store is exactly Reduce of the old state. A TypeError part-way keeps what was assigned before it. |
| ComfyUi.ImageGenerationStore.UpdateDestImages | WebUI/src/assets/js/store/comfyUi.ts:100-105 | Missing or malformed images change nothing. Otherwise the loop sends each output image to the next slot and advances generateIdx by their number. |
| ComfyUi.ImageGenerationStore.AppendUpdates | WebUI/src/assets/js/store/comfyUi.ts:102-105 | The forEach body run over the URLs appends (slot, url) pairs at consecutive slots and advances generateIdx by the number of URLs. |
| OpenVinoAdapter.ConvertPrompt | OpenVINO/openvino_adapter.py:175-186 | The history starts with the default system prompt and has length 1 for no turns and 2n otherwise. Question i is at 2i+1 and answer i at 2i+2 for i < n-1. Roles alternate user/assistant, and the last entry is the last question; the last answer is dropped. |
| OpenVinoAdapter.Classify | OpenVINO/openvino_adapter.py:59-86 | repositories_not_found exactly for a NotImplementedError with the repositories message; runtime_error exactly for other RuntimeErrors, subclasses included; unknown_exception exactly for every other exception. |
| OpenVinoAdapter.ErrorMessages | OpenVINO/openvino_adapter.py:59-87 | error_callback enqueues exactly two messages: the classified error, then a text message holding the "exception:" marker followed by the exception text, which can be read back from it. |
| OpenVinoAdapter.CountTextOutsOfTextOuts | OpenVINO/openvino_adapter.py:43-45 | Every output turned into messages counts as one text_out. |
| OpenVinoAdapter.CountTextOutsOfLoadMessages | OpenVINO/openvino_adapter.py:35-37 | Load-event messages contain no text_out. |
| OpenVinoAdapter.CountTextOutsAppend | OpenVINO/openvino_adapter.py:131-135 | The text_out count of a concatenation is the sum of the parts' counts. |
| OpenVinoAdapter.StreamedCount | OpenVINO/openvino_adapter.py:98-110 | Streaming stops right after the output at which stop_generate is seen, and otherwise runs through every output. |
| OpenVinoAdapter.RunEndsWithFinishIff | OpenVINO/openvino_adapter.py:113-151 | A run's last message is finish exactly when neither loading nor completion threw. |
| OpenVinoAdapter.RunMetricsBeforeFinish | OpenVINO/openvino_adapter.py:131-143 | On success, metrics comes just before finish, and finish appears nowhere else. |
| OpenVinoAdapter.RunFailureEndsWithError | OpenVINO/openvino_adapter.py:145-147 | On failure, the run ends with error_callback's two messages for the exception raised, and no metrics message is sent. |
| OpenVinoAdapter.RunMetricsCountsTextOuts | OpenVINO/openvino_adapter.py:98-143 | The num_tokens reported in metrics equals the number of text_out messages the run enqueued. |
| OpenVinoAdapter.RunStopFollowsLastOutput | OpenVINO/openvino_adapter.py:98-110 | A stop is acknowledged with "Stopping generation." right after the output at which it was seen, and no text_out follows it. |
| OpenVinoAdapter.SseAdapter.constructor | OpenVINO/openvino_adapter.py:19-29 | A new adapter has an empty queue, finish and should_stop false, no tokens counted, and is waiting for its first token. |
| OpenVinoAdapter.SseAdapter.PutMsg | OpenVINO/openvino_adapter.py:31-33 | put_msg appends exactly its message to the queue. |
| OpenVinoAdapter.SseAdapter.LoadModelCallback | OpenVINO/openvino_adapter.py:35-37 | Enqueues one load_model message for the event. |
| OpenVinoAdapter.SseAdapter.TextOutCallback | OpenVINO/openvino_adapter.py:43-45 | Enqueues one text_out message with the value and dtype. |
| OpenVinoAdapter.SseAdapter.ErrorCallback | OpenVINO/openvino_adapter.py:59-87 | Enqueues the classified error and then the exception text, nothing else. |
| OpenVinoAdapter.SseAdapter.StreamFunction | OpenVINO/openvino_adapter.py:98-110 | Each call enqueues one text_out, increments num_tokens by one and clears is_first_token. It returns True, after enqueueing "Stopping generation.", exactly when stop_generate is set. |
| OpenVinoAdapter.SseAdapter.Complete | OpenVINO/openvino_adapter.py:129 | Driving stream_function over the outputs enqueues StreamMessages, and num_tokens equals the number of outputs streamed. |
| OpenVinoAdapter.SseAdapter.LoadWithCallbacks | OpenVINO/openvino_adapter.py:118 | Loading enqueues one load_model message per event, in order. |
| OpenVinoAdapter.SseAdapter.Generate | OpenVINO/openvino_adapter.py:120-143 | The counters are reset, the converted prompt is completed, and then metrics and finish, or the error, are enqueued. |
| OpenVinoAdapter.SseAdapter.TextConversationRun | OpenVINO/openvino_adapter.py:113-151 | The run enqueues exactly RunMessages. On every path stop_generate ends False and finish True. num_tokens counts the streamed outputs. |
| OpenVinoAdapter.RagPrompt | OpenVINO/openvino_adapter.py:10 | The filled prompt starts with the RAG instruction and ends with the user's prompt. Its length is the sum of the instruction, the context, the question header and the prompt. |
| OpenVinoAdapter.RagPromptInjective | OpenVINO/openvino_adapter.py:10 | For a fixed question, the context can be recovered from the filled prompt. |
| OpenVinoAdapter.ProcessRag | OpenVINO/openvino_adapter.py:189-202 | On query failure the prompt is unchanged and there is no callback. On success the result is the filled RAG prompt, and the source is reported once with dtype 2 when a callback is given. |
| LlamaRag.LastSep | LlamaCPP/llama_rag.py:112 | The last path separator ('/' or '\\'), with none after it. |
| LlamaRag.Basename | LlamaCPP/llama_rag.py:112 | The base name is the longest separator-free suffix of the path. |
| LlamaRag.LastDot | LlamaCPP/llama_rag.py:113 | The last dot of the name, with none after it. |
| LlamaRag.SplitExt | LlamaCPP/llama_rag.py:113 | Root plus extension is the name. A non-empty extension starts at the last dot and follows a non-dot character. A name with only leading dots has no extension. |
| LlamaRag.LoaderFor | LlamaCPP/llama_rag.py:113-126 | A loader is chosen only for its own extension; no loader exactly when no loader has that extension. |
| LlamaRag.DispatchIgnoresCase | LlamaCPP/llama_rag.py:113-126 | A raw extension selects a loader exactly when it spells that loader's extension letter by letter up to ASCII case. |
| LlamaRag.MixedCaseExtensionsDispatch | LlamaCPP/llama_rag.py:113-124 | `.PDF` selects the PDF loader and `.DocX` the docx loader, like their lower-case forms. |
| LlamaRag.UpperCaseFileUsesPdfLoader | LlamaCPP/llama_rag.py:112-117 | A file `docs\A.PDF` has the extension `.pdf` and is analysed with the PDF loader. |
| LlamaRag.LoaderForIff | LlamaCPP/llama_rag.py:115-126 | A loader is chosen exactly for .txt, .pdf, .doc, .docx and .md. |
| LlamaRag.LoaderForExtension | LlamaCPP/llama_rag.py:115-124 | Each loader is chosen for its own extension. |
| LlamaRag.Analyze | LlamaCPP/llama_rag.py:111-133 | A successful analysis always yields at least one document. |
| LlamaRag.AnalyzeUnsupported | LlamaCPP/llama_rag.py:125-126 | An unsupported extension raises "Unsupported file extension" with that extension. |
| LlamaRag.AnalyzeSupported | LlamaCPP/llama_rag.py:115-133 | With a supported extension, the loader's exception propagates, and an empty split raises "Cannot analyze" with the base name. Otherwise the split documents are the result. |
| LlamaRag.UuidsFresh | LlamaCPP/llama_rag.py:106 | With a collision-free generator, the new ids are pairwise distinct and differ from every earlier one. |
| LlamaRag.AfterAddStoreIds | LlamaCPP/llama_rag.py:95-107 | Storing documents appends the next stream outputs, one per document, to the store's ids. |
| LlamaRag.AfterAddKeepsIdsFresh | LlamaCPP/llama_rag.py:95-109 | Storing keeps the store's ids pairwise distinct and unused by the rest of the stream, and no new id was in the store before. |
| LlamaRag.AddKeepsIdsFresh | LlamaCPP/llama_rag.py:135-143 | add_index_file keeps every id in the store unique, on every path. |
| LlamaRag.AddDuplicateChangesNothing | LlamaCPP/llama_rag.py:135-140 | An already-indexed MD5 returns (1, md5) and changes nothing. |
| LlamaRag.AddFailureChangesNothing | LlamaCPP/llama_rag.py:135-142 | A file that cannot be analysed raises its message before anything changes. |
| LlamaRag.AddNewAppendsOneEntry | LlamaCPP/llama_rag.py:135-143 | A new, analysable file returns (0, md5), and the state becomes AfterAdd of its base name, MD5 and documents. |
| LlamaRag.AfterAddIndex | LlamaCPP/llama_rag.py:86-109 | Storing appends exactly one index entry: the base name, the MD5 and one fresh id per document. The new list is saved. |
| LlamaRag.AfterAddStore | LlamaCPP/llama_rag.py:95-109 | The documents are stored after the existing entries under their new ids, and the new store is saved. |
| LlamaRag.AddTwiceIsDuplicate | LlamaCPP/llama_rag.py:135-143 | After a successful add, adding the same content again, under any name, is reported as already indexed. |
| LlamaRag.AddKeepsMd5sUnique | LlamaCPP/llama_rag.py:135-143 | Adding keeps the index list free of duplicate MD5s. |
| LlamaRag.Relevant | LlamaCPP/llama_rag.py:153-157 | At most INDEX_NUM hits. Each hit is one of the first INDEX_NUM ranked documents and scores at least 0.4, and every such document is a hit. The hits are empty exactly when none of the first INDEX_NUM scores 0.4, which is when the query answers (False, None, None). |
| LlamaRag.RelevantHitsStored | LlamaCPP/llama_rag.py:153-159 | When every ranked document is one of the store's documents, every hit is too. |
| LlamaRag.Passing | LlamaCPP/llama_rag.py:153-155 | The kept documents are exactly those that reach the score threshold: each kept one passes and each passing one is kept. Nothing is kept exactly when nothing passes. |
| LlamaRag.PassingAppend | LlamaCPP/llama_rag.py:153-155 | Filtering distributes over concatenation, so hits keep their rank order. |
| LlamaRag.RelevantInRankOrder | LlamaCPP/llama_rag.py:153-157 | The hits in full: the best-ranked document if it passes, followed by the second-ranked if it passes. |
| LlamaRag.Distinct | LlamaCPP/llama_rag.py:160 | Duplicates are removed and nothing else is: the result is duplicate-free with the same members. |
| LlamaRag.SourceSet | LlamaCPP/llama_rag.py:160 | The sources are exactly the hits' source paths, each listed once. |
| LlamaRag.LoadExistsIndex | LlamaCPP/llama_rag.py:78-84 | The saved list is returned when index.json reads and parses; any error gives an empty list. |
| LlamaRag.EmbeddingDatabase.constructor | LlamaCPP/llama_rag.py:60-76 | The store is the saved one if index.faiss exists. The index list comes from index.json if it exists, else it is empty. |
| LlamaRag.EmbeddingDatabase.SaveIndex | LlamaCPP/llama_rag.py:86-93 | `__save_index` appends exactly one entry, then writes the new list and the store. |
| LlamaRag.EmbeddingDatabase.AddDocuments | LlamaCPP/llama_rag.py:95-109 | `__add_documents` creates the store if needed, stores each document under a fresh id, appends the entry and saves. |
| LlamaRag.EmbeddingDatabase.AnalyzeFileToDb | LlamaCPP/llama_rag.py:111-133 | Raises without changing anything when Analyze fails, and otherwise stores the documents as AfterAdd says. |
| LlamaRag.EmbeddingDatabase.AddIndexFile | LlamaCPP/llama_rag.py:135-143 | The early-return loop over index_list gives exactly AddSpec: (1, md5) with no change for a known MD5, otherwise the analysis and (0, md5), or the exception. |
| LlamaRag.EmbeddingDatabase.QueryDatabase | LlamaCPP/llama_rag.py:145-161 | No query, or an empty one, raises. No store or no hits gives (False, None, None). Otherwise the contents are joined by blank lines in hit order and the distinct sources by newlines. |
| LlamaRag.QueryContextShape | LlamaCPP/llama_rag.py:159-161 | The context starts with the best hit's content. Its length is the hits' contents plus one two-character blank-line separator between consecutive hits. |

## Left out

- Waiting for the backend to become healthy (`listenServerReady`, the 250 ms health poll, the 120 s deadline and the race with the early-exit promise) is not modelled. Timers and promise races are outside Dafny; `Start` takes the boolean it resolves to.
- The stop grace period of 1000 ms is a plain pause in `Stop`, because time is not modelled.
- `pipeProcessLogs`, all logging, and `print` calls in the Python code are left out: they only write logs.
- `installUv`, `detectDeviceArcMock` and `getLsLevelZeroPath`/`getPythonPath` beyond joining with "/" are not modelled; no core operation depends on them.
- Process spawning, the file system, `fetch` and `webContents.send` are left out: their outcomes are inputs, the published snapshots are a ghost sequence, and process kills are a ghost sequence.
- `getDeviceArch` and `getArchPriority` (`deviceArch.ts` is not part of this model) are function parameters.
- ApiService.PythonApiService.Start: an error thrown by the health wait itself is not modelled; only a thrown spawn reaches the catch block.
- ApiService.PythonApiService.Start: the spawn is an input, an outcome of spawnAPIProcess (apiService.ts:118). For the llama.cpp backend that call first runs getDeviceSelectorEnv (llamaCppBackendService.ts:66-67), which may run discovery and store the device list and selection, or throw into start's catch block (apiService.ts:130-135). Those device-field side effects are modelled in LlamaCppBackend.LlamaCppBackendService.SpawnAPIProcess but not folded into Start, whose frame leaves the device fields unchanged.
- ApiService.PythonApiService.DetectDevice: the copy of ls_level_zero.exe and the install of its requirements are one input, `tools`. Only the wrapped error of the first failure matters.
- Path handling: paths are joined with "/" and never resolved or normalised. Windows drive prefixes are not split off by `Basename`, and environment variable names are compared case-sensitively.
- `Strings.ToLower` lower-cases ASCII letters only; Python's `str.lower` also folds other alphabets.
- In the ComfyUI store, the rest of the module is left out; it is browser and network plumbing:
  - the websocket connection and binary image frames;
  - `generate`, `stop`, `free` and `updateComfyState`;
  - the SHA-256 upload names, `dataURItoBlob` and `Math.random` seeds;
  - Pinia reactivity.
- ComfyUi.ImageGenerationStore.HandleTextMessage: a text frame that is not valid JSON is left out, because the handler catches the parse error and changes nothing, and messages are modelled already parsed.
- JSON numbers are integers in the model. The ComfyUI progress values and every float are not modelled, so `${value}` of a fractional number is not rendered.
- The OpenVINO timing metrics are not modelled, because they are floats and wall-clock times. `Metrics` carries only num_tokens.
- The OpenVINO SSE generator, `text_conversation`, the worker thread, the wake-up event and the JSON serialisation of queued messages are left out: they are concurrency and I/O. The queue is a sequence.
- `text_in_callback`, `first_latency_callback`, `after_latency_callback` and `sr_latency_callback` are left out, because no modelled path calls them.
- The LLM interface is left out: it is foreign code. A run is described by its load events, load error, streamed outputs, stop point and completion error. `create_chat_completion` is assumed to call stream_function on each output until it returns True.
- `rag.to(device)` in `process_rag` is left out: it moves the model to a device and has no effect on the result.
- FAISS, the embedding model, the langchain loaders and text splitter, MD5 hashing and JSON file persistence are left out: they are foreign libraries. They become the digest, the split function, the relevance ranking and the saved-state fields.
- LlamaRag.SourceSet: Python builds a set, whose iteration order is unspecified. The model uses first-occurrence order, so the order of the joined sources is a choice of the model.
- Creating the db directory (`os.makedirs`) in `__save_index` is not modelled, because directories are not modelled.
- DiscoverAndSelect, GetDeviceSelectorEnv, DetectDevice, SetUp, RunStages and SpawnAPIProcess: the model requires the helper to number the devices it prints by their positions in the list (DiscoveryWellNumbered, IdsArePositions). The code stores `device.id` as the selection (apiService.ts:236) and later indexes the list with it (apiService.ts:239). An id that is not a position gives a TypeError or the wrong device, and the selection then stays set, so later calls skip discovery. That case is not modelled.
- Start and Stop are modelled as atomic. In the code they can interleave at their awaits (apiService.ts:114-141, 144-158): a stop during a start kills the old handle, and the start then stores and keeps the new process. That interleaving is not modelled.
- The OpenVINO metrics divide by time differences (openvino_adapter.py:133-141), which can raise ZeroDivisionError when two clock readings are equal. Times are not modelled, so neither is that exception.
- ComfyUI workflows are a sequence of (key, node) pairs, which can hold a key twice; a JavaScript object cannot. Every lookup uses the first entry with the key, so a duplicate is never seen.
- AddDocuments, UuidsFresh: ids are drawn from the stream from position 0 in every new object, also over a loaded store. IdsFresh holds of such an object only if the generator avoids the loaded store's ids; the model takes that as the invariant's hypothesis, as uuid4 gives with overwhelming probability, rather than proving it.
- LlamaCPP/llama_web_api.py and the request-body files are left out: they are routing and field declarations.

## Findings

| source | as written | input that shows it | evidently intended | confidence | as-written member | corrected member |
|---|---|---|---|---|---|---|
| WebUI/src/assets/js/store/comfyUi.ts:301-319 | getInputNameBySettingAndKey picks the first mapped input whose current value is truthy. modifySettingInWorkflow writes only when that input is defined, so a node whose template value is falsy (an empty prompt text, a seed of 0) is never written, and the setting is silently dropped. | A workflow with one node "6" titled "prompt" whose inputs are {text: ""}, templated with prompt "a cat": the workflow stays unchanged. | Write the value into the first mapped input that is defined on the node, whatever its current value. | not executed | ComfyUi.EmptyPromptIsNotOverwritten (with ComfyUi.WithSettingAsWritten) | ComfyUi.WithSettingApplies (with ComfyUi.WithSetting) |
