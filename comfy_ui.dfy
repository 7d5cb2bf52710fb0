/**
 * The ComfyUI store: templating a ComfyUI API workflow (finding the nodes a
 * generation setting targets and writing the setting into the first of them), and
 * the reducer that folds ComfyUI's websocket text messages into the image
 * generation state.
 *
 * A workflow is a JSON object from node keys to nodes; it is modelled as its
 * entries in Object.entries order. A node's `_meta.title` and `class_type` are
 * modelled only when they are strings, the only case in which `===` against a
 * string can hold.
 */
module ComfyUi {
  import opened Wrappers
  import opened Json
  import Strings

  /** The settings a workflow can be templated with (the keys of settingToComfyInputsName). */
  datatype ComfySetting =
    | Seed
    | InferenceSteps
    | Height
    | Width
    | Prompt
    | NegativePrompt
    | GuidanceScale
    | Scheduler
    | BatchSize

  /** The setting's key; a node titled with it is targeted by the setting. */
  function SettingName(s: ComfySetting): string {
    match s
    case Seed => "seed"
    case InferenceSteps => "inferenceSteps"
    case Height => "height"
    case Width => "width"
    case Prompt => "prompt"
    case NegativePrompt => "negativePrompt"
    case GuidanceScale => "guidanceScale"
    case Scheduler => "scheduler"
    case BatchSize => "batchSize"
  }

  /** The input name that is never searched for by name. */
  const TextInput: string := "text"

  /** settingToComfyInputsName: the node inputs a setting may be written to, in order of preference. */
  function InputNames(s: ComfySetting): (names: seq<string>)
    ensures |names| >= 1
  {
    match s
    case Seed => ["seed", "noise_seed"]
    case InferenceSteps => ["steps"]
    case Height => ["height"]
    case Width => ["width"]
    case Prompt => [TextInput]
    case NegativePrompt => [TextInput]
    case GuidanceScale => ["cfg"]
    case Scheduler => ["scheduler"]
    case BatchSize => ["batch_size"]
  }

  /** A workflow node: its inputs object (if any), its class_type and its _meta.title. */
  datatype Node = Node(inputs: Option<map<string, Value>>, classType: Option<string>, title: Option<string>)

  /** A workflow's entries, in Object.entries order. */
  type Workflow = seq<(string, Node)>

  /** What a lookup filters the entries by. */
  datatype Criterion = TitleIs(title: string) | ClassTypeIs(classType: string) | InputDefined(name: string)

  predicate Matches(n: Node, c: Criterion) {
    match c
    case TitleIs(t) => n.title == Some(t)
    case ClassTypeIs(t) => n.classType == Some(t)
    case InputDefined(name) => n.inputs.Some? && name in n.inputs.value
  }

  /** Object.entries(workflow).filter(matches c).map(key). */
  function KeysWhere(w: Workflow, c: Criterion): (keys: seq<string>)
    ensures |keys| <= |w|
  {
    if w == [] then []
    else
      var rest := KeysWhere(w[..|w| - 1], c);
      if Matches(w[|w| - 1].1, c) then rest + [w[|w| - 1].0] else rest
  }

  /** The keys found are exactly the keys of matching entries. */
  lemma {:induction false} KeysWhereMembership(w: Workflow, c: Criterion, k: string)
    ensures k in KeysWhere(w, c) <==> exists i :: 0 <= i < |w| && w[i].0 == k && Matches(w[i].1, c)
  {
    if w != [] {
      var init := w[..|w| - 1];
      KeysWhereMembership(init, c, k);
      if exists i :: 0 <= i < |init| && init[i].0 == k && Matches(init[i].1, c) {
        var i :| 0 <= i < |init| && init[i].0 == k && Matches(init[i].1, c);
        assert w[i] == init[i];
      }
    }
  }

  /** Lookups distribute over concatenation of entries: the keys come out in entry order. */
  lemma {:induction false} KeysWhereAppend(w1: Workflow, w2: Workflow, c: Criterion)
    ensures KeysWhere(w1 + w2, c) == KeysWhere(w1, c) + KeysWhere(w2, c)
    decreases |w2|
  {
    if w2 == [] {
      assert w1 + w2 == w1;
    } else {
      var init := w2[..|w2| - 1];
      assert (w1 + w2)[..|w1 + w2| - 1] == w1 + init;
      KeysWhereAppend(w1, init, c);
    }
  }

  /** The first key found is the key of the first matching entry. */
  lemma {:induction false} KeysWhereFirst(w: Workflow, c: Criterion)
    requires KeysWhere(w, c) != []
    ensures exists i :: 0 <= i < |w| && Matches(w[i].1, c) && w[i].0 == KeysWhere(w, c)[0]
                        && forall j :: 0 <= j < i ==> !Matches(w[j].1, c)
  {
    var init := w[..|w| - 1];
    if KeysWhere(init, c) == [] {
      assert forall j :: 0 <= j < |init| ==> !Matches(init[j].1, c) by {
        forall j | 0 <= j < |init|
          ensures !Matches(init[j].1, c)
        {
          KeysWhereMembership(init, c, init[j].0);
        }
      }
      assert Matches(w[|w| - 1].1, c);
    } else {
      KeysWhereFirst(init, c);
      var i :| 0 <= i < |init| && Matches(init[i].1, c) && init[i].0 == KeysWhere(init, c)[0]
               && forall j :: 0 <= j < i ==> !Matches(init[j].1, c);
      assert w[i] == init[i];
    }
  }

  /** findKeysByTitle. */
  function FindKeysByTitle(w: Workflow, title: string): seq<string> {
    KeysWhere(w, TitleIs(title))
  }

  /** findKeysByClassType. */
  function FindKeysByClassType(w: Workflow, classType: string): seq<string> {
    KeysWhere(w, ClassTypeIs(classType))
  }

  /** Both lookups return exactly the matching keys, in entry order, and nothing else. */
  lemma FindKeysSpec(w: Workflow, title: string, classType: string, k: string)
    ensures k in FindKeysByTitle(w, title) <==> exists i :: 0 <= i < |w| && w[i].0 == k && w[i].1.title == Some(title)
    ensures k in FindKeysByClassType(w, classType) <==>
      exists i :: 0 <= i < |w| && w[i].0 == k && w[i].1.classType == Some(classType)
  {
    KeysWhereMembership(w, TitleIs(title), k);
    KeysWhereMembership(w, ClassTypeIs(classType), k);
  }

  /** The early-return loop of findKeysByInputsName over the remaining input names. */
  function FirstNonEmptyKeys(w: Workflow, names: seq<string>): (keys: seq<string>)
    ensures keys != [] ==>
      exists j :: 0 <= j < |names| && names[j] != TextInput && keys == KeysWhere(w, InputDefined(names[j]))
                  && forall j' :: 0 <= j' < j && names[j'] != TextInput ==> KeysWhere(w, InputDefined(names[j'])) == []
    ensures keys == [] <==>
      forall j :: 0 <= j < |names| && names[j] != TextInput ==> KeysWhere(w, InputDefined(names[j])) == []
  {
    if names == [] then []
    else if names[0] == TextInput then FirstNonEmptyKeys(w, names[1..])
    else
      var keys := KeysWhere(w, InputDefined(names[0]));
      if |keys| > 0 then keys else FirstNonEmptyKeys(w, names[1..])
  }

  /** findKeysByInputsName: the first non-empty list of nodes defining one of the setting's inputs, "text" skipped. */
  function FindKeysByInputsName(w: Workflow, s: ComfySetting): seq<string> {
    FirstNonEmptyKeys(w, InputNames(s))
  }

  /** The prompts can only be targeted by title: their one input name is skipped. */
  lemma PromptsHaveNoInputsNameMatch(w: Workflow, s: ComfySetting)
    requires s == Prompt || s == NegativePrompt
    ensures FindKeysByInputsName(w, s) == []
  {
  }

  /** The index of `workflow[key]`: the first entry with that key. */
  function IndexOf(w: Workflow, key: string): (r: Option<nat>)
    ensures r.Some? ==> r.value < |w| && w[r.value].0 == key && forall j :: 0 <= j < r.value ==> w[j].0 != key
    ensures r.None? ==> forall j :: 0 <= j < |w| ==> w[j].0 != key
  {
    if w == [] then None
    else if w[0].0 == key then Some(0)
    else match IndexOf(w[1..], key)
      case None => None
      case Some(i) => Some(i + 1)
  }

  /** `workflow[key]` depends on the keys only: workflows with the same key sequence agree on it. */
  lemma IndexOfSameKeys(w1: Workflow, w2: Workflow, key: string)
    requires |w1| == |w2| && forall j :: 0 <= j < |w1| ==> w1[j].0 == w2[j].0
    ensures IndexOf(w1, key) == IndexOf(w2, key)
  {
  }

  /** `workflow[key]?.inputs?.[name]`, None when undefined. */
  function InputValue(w: Workflow, key: string, name: string): Option<Value> {
    match IndexOf(w, key)
    case None => None
    case Some(i) =>
      var n := w[i].1;
      if n.inputs.Some? && name in n.inputs.value then Some(n.inputs.value[name]) else None
  }

  predicate TruthyInput(w: Workflow, key: string, name: string) {
    InputValue(w, key, name).Some? && Truthy(InputValue(w, key, name).value)
  }

  /** The position of the first name whose input is truthy on the node. */
  function FirstTruthyIndex(w: Workflow, key: string, names: seq<string>): (r: Option<nat>)
    ensures r.Some? ==> r.value < |names| && TruthyInput(w, key, names[r.value])
                        && forall j :: 0 <= j < r.value ==> !TruthyInput(w, key, names[j])
    ensures r.None? ==> forall j :: 0 <= j < |names| ==> !TruthyInput(w, key, names[j])
  {
    if names == [] then None
    else if TruthyInput(w, key, names[0]) then Some(0)
    else match FirstTruthyIndex(w, key, names[1..])
      case None => None
      case Some(i) => Some(i + 1)
  }

  /** getInputNameBySettingAndKey: the first mapped input name whose value is truthy on the node, else "". */
  function GetInputNameBySettingAndKey(w: Workflow, key: string, s: ComfySetting): (name: string)
    ensures name == "" <==> forall j :: 0 <= j < |InputNames(s)| ==> !TruthyInput(w, key, InputNames(s)[j])
    ensures name != "" ==>
      exists j :: 0 <= j < |InputNames(s)| && name == InputNames(s)[j] && TruthyInput(w, key, name)
                  && forall j' :: 0 <= j' < j ==> !TruthyInput(w, key, InputNames(s)[j'])
  {
    assert forall j :: 0 <= j < |InputNames(s)| ==> InputNames(s)[j] != "";
    match FirstTruthyIndex(w, key, InputNames(s))
    case None => ""
    case Some(j) => InputNames(s)[j]
  }

  /** The keys modifySettingInWorkflow considers: title matches if there are any, else input-name matches. */
  function TargetKeys(w: Workflow, s: ComfySetting): seq<string> {
    var byTitle := FindKeysByTitle(w, SettingName(s));
    if |byTitle| > 0 then byTitle else FindKeysByInputsName(w, s)
  }

  /** `workflow[w[i].0].inputs[name] = value`. */
  function SetInput(w: Workflow, i: nat, name: string, value: Value): Workflow
    requires i < |w| && w[i].1.inputs.Some?
  {
    var n := w[i].1;
    w[i := (w[i].0, n.(inputs := Some(n.inputs.value[name := value])))]
  }

  /** Writing one input changes that input of that node and nothing else. */
  lemma SetInputChangesOneInput(w: Workflow, i: nat, name: string, value: Value)
    requires i < |w| && w[i].1.inputs.Some? && name in w[i].1.inputs.value
    ensures var r := SetInput(w, i, name, value);
      && |r| == |w|
      && (forall j :: 0 <= j < |w| && j != i ==> r[j] == w[j])
      && r[i].0 == w[i].0 && r[i].1.classType == w[i].1.classType && r[i].1.title == w[i].1.title
      && r[i].1.inputs.Some? && r[i].1.inputs.value.Keys == w[i].1.inputs.value.Keys
      && r[i].1.inputs.value[name] == value
      && (forall m :: m in w[i].1.inputs.value && m != name ==> r[i].1.inputs.value[m] == w[i].1.inputs.value[m])
  {
  }

  /** modifySettingInWorkflow as written: the input name is chosen by truthiness. */
  function WithSettingAsWritten(w: Workflow, s: ComfySetting, value: Value): Workflow {
    var keys := TargetKeys(w, s);
    if keys == [] then w
    else
      var name := GetInputNameBySettingAndKey(w, keys[0], s);
      match IndexOf(w, keys[0])
      case None => w
      case Some(i) => if InputValue(w, keys[0], name).Some? then SetInput(w, i, name, value) else w
  }

  /**
   * With no target the workflow is unchanged; otherwise at most one input changes,
   * a defined input of the first target node; title matches win over input names.
   * The input written is the one getInputNameBySettingAndKey names for that node,
   * and nothing is written when that name is not an input of the node.
   */
  lemma WithSettingAsWrittenChangesAtMostOneInput(w: Workflow, s: ComfySetting, value: Value)
    ensures TargetKeys(w, s) == [] ==> WithSettingAsWritten(w, s, value) == w
    ensures FindKeysByTitle(w, SettingName(s)) != [] ==> TargetKeys(w, s) == FindKeysByTitle(w, SettingName(s))
    ensures WithSettingAsWritten(w, s, value) == w
      || exists i, name :: 0 <= i < |w| && w[i].0 == TargetKeys(w, s)[0]
                           && w[i].1.inputs.Some? && name in w[i].1.inputs.value
                           && WithSettingAsWritten(w, s, value) == SetInput(w, i, name, value)
    ensures TargetKeys(w, s) != [] ==>
      var key := TargetKeys(w, s)[0];
      var name := GetInputNameBySettingAndKey(w, key, s);
      && (InputValue(w, key, name).None? ==> WithSettingAsWritten(w, s, value) == w)
      && (InputValue(w, key, name).Some? ==>
            IndexOf(w, key).Some? && WithSettingAsWritten(w, s, value) == SetInput(w, IndexOf(w, key).value, name, value))
  {
  }

  /** The position of the first name that is defined (not just truthy) on the node. */
  function FirstDefinedIndex(w: Workflow, key: string, names: seq<string>): (r: Option<nat>)
    ensures r.Some? ==> r.value < |names| && InputValue(w, key, names[r.value]).Some?
                        && forall j :: 0 <= j < r.value ==> InputValue(w, key, names[j]).None?
    ensures r.None? ==> forall j :: 0 <= j < |names| ==> InputValue(w, key, names[j]).None?
  {
    if names == [] then None
    else if InputValue(w, key, names[0]).Some? then Some(0)
    else match FirstDefinedIndex(w, key, names[1..])
      case None => None
      case Some(i) => Some(i + 1)
  }

  /** modifySettingInWorkflow as evidently intended: the first mapped input defined on the node is written. */
  function WithSetting(w: Workflow, s: ComfySetting, value: Value): Workflow {
    var keys := TargetKeys(w, s);
    if keys == [] then w
    else
      match FirstDefinedIndex(w, keys[0], InputNames(s))
      case None => w
      case Some(j) =>
        match IndexOf(w, keys[0])
        case None => w
        case Some(i) => SetInput(w, i, InputNames(s)[j], value)
  }

  /** Whenever the first target node defines one of the setting's inputs, the value lands in the first such input. */
  lemma WithSettingApplies(w: Workflow, s: ComfySetting, value: Value)
    requires TargetKeys(w, s) != []
    requires FirstDefinedIndex(w, TargetKeys(w, s)[0], InputNames(s)).Some?
    ensures var key, j := TargetKeys(w, s)[0], FirstDefinedIndex(w, TargetKeys(w, s)[0], InputNames(s)).value;
      InputValue(WithSetting(w, s, value), key, InputNames(s)[j]) == Some(value)
  {
    var key := TargetKeys(w, s)[0];
    var i := IndexOf(w, key).value;
    var r := WithSetting(w, s, value);
    IndexOfSameKeys(r, w, key);
  }

  /** The corrected version differs only in choosing the input; it agrees when the chosen input is truthy. */
  lemma WithSettingAgreesOnTruthyInputs(w: Workflow, s: ComfySetting, value: Value)
    requires TargetKeys(w, s) != []
    requires forall j :: 0 <= j < |InputNames(s)| && InputValue(w, TargetKeys(w, s)[0], InputNames(s)[j]).Some? ==>
      TruthyInput(w, TargetKeys(w, s)[0], InputNames(s)[j])
    requires InputValue(w, TargetKeys(w, s)[0], "").None?
    ensures WithSetting(w, s, value) == WithSettingAsWritten(w, s, value)
  {
    FirstIndicesAgree(w, TargetKeys(w, s)[0], InputNames(s));
  }

  /** When every defined input among names is truthy, the first defined and the first truthy coincide. */
  lemma FirstIndicesAgree(w: Workflow, key: string, names: seq<string>)
    requires forall j :: 0 <= j < |names| && InputValue(w, key, names[j]).Some? ==> TruthyInput(w, key, names[j])
    ensures FirstDefinedIndex(w, key, names) == FirstTruthyIndex(w, key, names)
  {
    var d := FirstDefinedIndex(w, key, names);
    var t := FirstTruthyIndex(w, key, names);
    if d.Some? {
      assert TruthyInput(w, key, names[d.value]);
      if t.Some? {
        assert InputValue(w, key, names[t.value]).Some?;
      }
    }
  }

  /** A prompt node whose template text is empty: the empty string is falsy. */
  function EmptyPromptWorkflow(): Workflow {
    [("6", Node(Some(map[TextInput := JString("")]), Some("CLIPTextEncode"), Some("prompt")))]
  }

  /** The prompt is not written into a prompt node whose text is still empty; the corrected version writes it. */
  lemma EmptyPromptIsNotOverwritten()
    ensures WithSettingAsWritten(EmptyPromptWorkflow(), Prompt, JString("a cat")) == EmptyPromptWorkflow()
    ensures InputValue(WithSetting(EmptyPromptWorkflow(), Prompt, JString("a cat")), "6", TextInput) == Some(JString("a cat"))
  {
    var w := EmptyPromptWorkflow();
    assert FindKeysByTitle(w, "prompt") == ["6"] by {
      assert w[..0] == [];
    }
    assert TargetKeys(w, Prompt) == ["6"];
    assert !TruthyInput(w, "6", TextInput);
    assert GetInputNameBySettingAndKey(w, "6", Prompt) == "";
    assert InputValue(w, "6", "") == None;
    WithSettingApplies(w, Prompt, JString("a cat"));
  }

  /** The API workflow being templated, updated in place. */
  class ApiWorkflow {
    var entries: Workflow

    constructor (entries: Workflow)
      ensures this.entries == entries
    {
      this.entries := entries;
    }

    /** modifySettingInWorkflow. */
    method ModifySettingInWorkflow(s: ComfySetting, value: Value)
      modifies this
      ensures entries == WithSettingAsWritten(old(entries), s, value)
    {
      var byTitle := FindKeysByTitle(entries, SettingName(s));
      var keys := if |byTitle| > 0 then byTitle else FindKeysByInputsName(entries, s);
      if |keys| == 0 {
        // "No key found for setting": generation goes on with the workflow as is
        return;
      }
      var key := keys[0];
      var name := GetInputNameBySettingAndKey(entries, key, s);
      var index := IndexOf(entries, key);
      if index.Some? && InputValue(entries, key, name).Some? {
        var node := entries[index.value].1;
        entries := entries[index.value := (key, node.(inputs := Some(node.inputs.value[name := value])))];
      }
    }
  }

  const CheckpointLoader: string := "CheckpointLoaderSimple"
  const UnetLoader: string := "Unet Loader (GGUF)"
  const DualClipLoader: string := "DualCLIPLoader (GGUF)"
  const LoaderClassTypes: set<string> := {CheckpointLoader, UnetLoader, DualClipLoader}

  /** The loader nodes of a workflow, whose execution is reported as model loading. */
  function LoaderNodes(w: Workflow): seq<string> {
    FindKeysByClassType(w, CheckpointLoader) + FindKeysByClassType(w, UnetLoader) + FindKeysByClassType(w, DualClipLoader)
  }

  /** A key is a loader node exactly when its node has one of the three loader class types. */
  lemma LoaderNodesSpec(w: Workflow, k: string)
    ensures k in LoaderNodes(w) <==>
      exists i :: 0 <= i < |w| && w[i].0 == k && w[i].1.classType.Some? && w[i].1.classType.value in LoaderClassTypes
  {
    FindKeysSpec(w, "", CheckpointLoader, k);
    FindKeysSpec(w, "", UnetLoader, k);
    FindKeysSpec(w, "", DualClipLoader, k);
  }

  // ---------------------------------------------------------------------------
  // JavaScript property access and string conversion on parsed JSON.

  /** What `v.k` evaluates to: a TypeError when v is undefined or null, else the property (None: undefined). */
  datatype Access = TypeErrorThrown | Got(value: Option<Value>)

  function Member(v: Option<Value>, k: string): Access {
    match v
    case None => TypeErrorThrown
    case Some(JNull) => TypeErrorThrown
    case Some(JObject(fields)) => Got(if k in fields then Some(fields[k]) else None)
    case Some(_) => Got(None)
  }

  /** `v?.k`. */
  function OptionalMember(v: Option<Value>, k: string): Option<Value> {
    match Member(v, k)
    case TypeErrorThrown => None
    case Got(r) => r
  }

  /** `${v}`: String(v) for a parsed JSON value. */
  function ValueString(v: Value): string {
    match v
    case JNull => "null"
    case JBool(b) => if b then "true" else "false"
    case JNumber(n) => Strings.IntToString(n)
    case JString(s) => s
    case JArray(items) =>
      Strings.Join(seq(|items|, i requires 0 <= i < |items| => if items[i] == JNull then "" else ValueString(items[i])), ",")
    case JObject(_) => "[object Object]"
  }

  /** `${v}` where v may be undefined. */
  function JsString(v: Option<Value>): string {
    match v
    case None => "undefined"
    case Some(x) => ValueString(x)
  }

  // ---------------------------------------------------------------------------
  // The websocket text-message reducer.

  /** The `type` values the handler distinguishes. */
  datatype MessageKind =
    | StatusMessage
    | ProgressMessage
    | ExecutingMessage
    | ExecutedMessage
    | ExecutionStartMessage
    | ExecutionSuccessMessage
    | ExecutionErrorMessage
    | ExecutionInterruptedMessage
    | ExecutionCachedMessage
    | OtherMessage

  /** The `type` string of each kind. */
  function TypeName(k: MessageKind): string
    requires k != OtherMessage
  {
    match k
    case StatusMessage => "status"
    case ProgressMessage => "progress"
    case ExecutingMessage => "executing"
    case ExecutedMessage => "executed"
    case ExecutionStartMessage => "execution_start"
    case ExecutionSuccessMessage => "execution_success"
    case ExecutionErrorMessage => "execution_error"
    case ExecutionInterruptedMessage => "execution_interrupted"
    case ExecutionCachedMessage => "execution_cached"
  }

  /** The switch on `msg.type`: a kind when the value is one of the type strings, else OtherMessage. */
  function KindOf(t: Option<Value>): (k: MessageKind)
    ensures k != OtherMessage ==> t == Some(JString(TypeName(k)))
  {
    if t == Some(JString("status")) then StatusMessage
    else if t == Some(JString("progress")) then ProgressMessage
    else if t == Some(JString("executing")) then ExecutingMessage
    else if t == Some(JString("executed")) then ExecutedMessage
    else if t == Some(JString("execution_start")) then ExecutionStartMessage
    else if t == Some(JString("execution_success")) then ExecutionSuccessMessage
    else if t == Some(JString("execution_error")) then ExecutionErrorMessage
    else if t == Some(JString("execution_interrupted")) then ExecutionInterruptedMessage
    else if t == Some(JString("execution_cached")) then ExecutionCachedMessage
    else OtherMessage
  }

  /** Every kind is recognised from its type string. */
  lemma KindOfTypeName(k: MessageKind)
    requires k != OtherMessage
    ensures KindOf(Some(JString(TypeName(k)))) == k
  {
  }

  const GeneratingState: string := "generating"
  const LoadModelState: string := "load_model"
  const OutputImageType: string := "output"

  /** The filter of the "executed" case: images whose type is "output". */
  predicate IsOutputImage(image: Value) {
    Member(Some(image), "type") == Got(Some(JString(OutputImageType)))
  }

  function OutputImages(images: seq<Value>): (outputs: seq<Value>)
    ensures |outputs| <= |images|
    ensures forall x :: x in outputs ==> x in images && IsOutputImage(x)
    ensures forall x :: x in images && IsOutputImage(x) ==> x in outputs
    ensures forall x :: multiset(outputs)[x] == if IsOutputImage(x) then multiset(images)[x] else 0
  {
    if images == [] then []
    else
      var rest := OutputImages(images[..|images| - 1]);
      var last := images[|images| - 1];
      assert images == images[..|images| - 1] + [last];
      assert forall x :: x in images ==> x in images[..|images| - 1] || x == last;
      if IsOutputImage(last) then rest + [last] else rest
  }

  /** The filter keeps the images' order: it distributes over concatenation. */
  lemma {:induction false} OutputImagesAppend(a: seq<Value>, b: seq<Value>)
    ensures OutputImages(a + b) == OutputImages(a) + OutputImages(b)
    decreases |b|
  {
    if b == [] {
      assert a + b == a;
    } else {
      var b' := b[..|b| - 1];
      assert (a + b)[..|a + b| - 1] == a + b';
      assert (a + b)[|a + b| - 1] == b[|b| - 1];
      OutputImagesAppend(a, b');
    }
  }

  const HttpScheme: string := "http://"
  const ViewFilename: string := "/view?filename="
  const TypeParameter: string := "&type="
  const SubfolderParameter: string := "&subfolder="

  /** The view URL of an output image on the ComfyUI host; a missing or null subfolder is empty. */
  function ImageUrl(hostAndPort: string, image: Value): string {
    var subfolder := OptionalMember(Some(image), "subfolder");
    HttpScheme + hostAndPort + ViewFilename + JsString(OptionalMember(Some(image), "filename"))
    + TypeParameter + JsString(OptionalMember(Some(image), "type"))
    + SubfolderParameter + (if subfolder.None? || subfolder == Some(JNull) then "" else JsString(subfolder))
  }

  /** The view URLs of `images`, in order. */
  function ImageUrls(hostAndPort: string, images: seq<Value>): (urls: seq<string>)
    ensures |urls| == |images|
  {
    if images == [] then []
    else ImageUrls(hostAndPort, images[..|images| - 1]) + [ImageUrl(hostAndPort, images[|images| - 1])]
  }

  /** URL j of the batch is the URL of image j. */
  lemma {:induction false} ImageUrlsAt(hostAndPort: string, images: seq<Value>)
    ensures forall j :: 0 <= j < |images| ==> ImageUrls(hostAndPort, images)[j] == ImageUrl(hostAndPort, images[j])
  {
    if images != [] {
      var init := images[..|images| - 1];
      ImageUrlsAt(hostAndPort, init);
      assert forall j :: 0 <= j < |init| ==> init[j] == images[j];
    }
  }

  /** `urls` paired with the slots idx, idx + 1, ... */
  function Numbered(idx: int, urls: seq<string>): (r: seq<(int, string)>)
    ensures |r| == |urls|
    ensures forall j :: 0 <= j < |urls| ==> r[j] == (idx + j, urls[j])
  {
    seq(|urls|, j requires 0 <= j < |urls| => (idx + j, urls[j]))
  }

  /** The updateDestImage calls for `images`, numbered from `idx`. */
  function DestUpdates(hostAndPort: string, idx: int, images: seq<Value>): seq<(int, string)> {
    Numbered(idx, ImageUrls(hostAndPort, images))
  }

  /** Image j of the batch goes to slot idx + j. */
  lemma DestUpdatesAt(hostAndPort: string, idx: int, images: seq<Value>)
    ensures |DestUpdates(hostAndPort, idx, images)| == |images|
    ensures forall j :: 0 <= j < |images| ==>
      DestUpdates(hostAndPort, idx, images)[j] == (idx + j, ImageUrl(hostAndPort, images[j]))
  {
    ImageUrlsAt(hostAndPort, images);
  }

  /** The image-generation state the reducer writes, and the updateDestImage calls it makes. */
  datatype GenerationView = GenerationView(
    processing: bool,
    currentState: string,
    stepText: string,
    generateIdx: int,
    destImageUpdates: seq<(int, string)>)

  /**
   * What one parsed text message does to the state. A TypeError thrown part-way is
   * caught by the handler, so whatever was assigned before it stays.
   */
  function Reduce(st: GenerationView, msg: Value, loaderNodes: seq<string>, hostAndPort: string, generatingLabel: string)
    : GenerationView
  {
    match Member(Some(msg), "type")
    case TypeErrorThrown => st
    case Got(t) =>
      var data := OptionalMember(Some(msg), "data");
      match KindOf(t)
      case ProgressMessage =>
        var generating := st.(currentState := GeneratingState);
        (match Member(data, "value")
         case TypeErrorThrown => generating
         case Got(value) =>
           generating.(stepText := generatingLabel + " " + JsString(value) + "/" + JsString(OptionalMember(data, "max"))))
      case ExecutingMessage =>
        if Member(data, "display_node").TypeErrorThrown? then st
        else
          var node := OptionalMember(data, "node");
          if node.Some? && node.value.JString? && node.value.s in loaderNodes then st.(currentState := LoadModelState)
          else st.(currentState := GeneratingState)
      case ExecutedMessage =>
        var images := OptionalMember(OptionalMember(data, "output"), "images");
        if images.None? || !images.value.JArray? || JNull in images.value.items then st
        else
          var outputs := OutputImages(images.value.items);
          st.(generateIdx := st.generateIdx + |outputs|,
              destImageUpdates := st.destImageUpdates + DestUpdates(hostAndPort, st.generateIdx, outputs))
      case ExecutionStartMessage => st.(processing := true)
      case ExecutionSuccessMessage => st.(processing := false)
      case ExecutionErrorMessage => st.(processing := false)
      case ExecutionInterruptedMessage => st.(processing := false)
      case _ => st
  }

  /** The kind of a message that has a `type` property. */
  function KindOfMessage(msg: Value): MessageKind {
    KindOf(OptionalMember(Some(msg), "type"))
  }

  /** "executed" advances the generation index by the number of output images and writes each to its slot. */
  lemma ReduceExecuted(st: GenerationView, msg: Value, loaderNodes: seq<string>, hostAndPort: string, generatingLabel: string,
                       images: seq<Value>)
    requires msg.JObject? && KindOfMessage(msg) == ExecutedMessage
    requires OptionalMember(OptionalMember(OptionalMember(Some(msg), "data"), "output"), "images") == Some(JArray(images))
    requires JNull !in images
    ensures var r := Reduce(st, msg, loaderNodes, hostAndPort, generatingLabel);
      && r.generateIdx == st.generateIdx + |OutputImages(images)|
      && r.destImageUpdates[..|st.destImageUpdates|] == st.destImageUpdates
      && |r.destImageUpdates| == |st.destImageUpdates| + |OutputImages(images)|
      && (forall j :: 0 <= j < |OutputImages(images)| ==>
            r.destImageUpdates[|st.destImageUpdates| + j] == (st.generateIdx + j, ImageUrl(hostAndPort, OutputImages(images)[j])))
      && r.processing == st.processing && r.currentState == st.currentState && r.stepText == st.stepText
  {
    DestUpdatesAt(hostAndPort, st.generateIdx, OutputImages(images));
  }

  /** The execution lifecycle messages only toggle `processing`. */
  lemma ReduceLifecycle(st: GenerationView, msg: Value, loaderNodes: seq<string>, hostAndPort: string, generatingLabel: string)
    requires msg.JObject?
    ensures KindOfMessage(msg) == ExecutionStartMessage ==>
      Reduce(st, msg, loaderNodes, hostAndPort, generatingLabel) == st.(processing := true)
    ensures KindOfMessage(msg) in {ExecutionSuccessMessage, ExecutionErrorMessage, ExecutionInterruptedMessage} ==>
      Reduce(st, msg, loaderNodes, hostAndPort, generatingLabel) == st.(processing := false)
    ensures KindOfMessage(msg) in {StatusMessage, ExecutionCachedMessage, OtherMessage} ==>
      Reduce(st, msg, loaderNodes, hostAndPort, generatingLabel) == st
  {
  }

  /** "executing" reports model loading exactly for loader nodes, and generation otherwise. */
  lemma ReduceExecuting(st: GenerationView, msg: Value, loaderNodes: seq<string>, hostAndPort: string, generatingLabel: string)
    requires msg.JObject? && KindOfMessage(msg) == ExecutingMessage
    requires "data" in msg.fields && msg.fields["data"].JObject?
    ensures var r := Reduce(st, msg, loaderNodes, hostAndPort, generatingLabel);
      var fields := msg.fields["data"].fields;
      && r == st.(currentState := r.currentState)
      && (r.currentState == LoadModelState <==> "node" in fields && fields["node"].JString? && fields["node"].s in loaderNodes)
      && (r.currentState != LoadModelState ==> r.currentState == GeneratingState)
  {
  }

  /** "progress" always switches to generating, and sets the step text only when `data` is present. */
  lemma ReduceProgress(st: GenerationView, msg: Value, loaderNodes: seq<string>, hostAndPort: string, generatingLabel: string)
    requires msg.JObject? && KindOfMessage(msg) == ProgressMessage
    ensures var r := Reduce(st, msg, loaderNodes, hostAndPort, generatingLabel);
      && r.currentState == GeneratingState
      && r.processing == st.processing && r.generateIdx == st.generateIdx && r.destImageUpdates == st.destImageUpdates
      && (("data" !in msg.fields || msg.fields["data"] == JNull) ==> r.stepText == st.stepText)
  {
  }

  /** The image-generation store fields the ComfyUI message handler writes. */
  class ImageGenerationStore {
    var processing: bool
    var currentState: string
    var stepText: string
    var generateIdx: int
    /** The calls made to updateDestImage, as (slot, url), in order. */
    var destImageUpdates: seq<(int, string)>

    function View(): GenerationView
      reads this
    {
      GenerationView(processing, currentState, stepText, generateIdx, destImageUpdates)
    }

    constructor (processing: bool, currentState: string, stepText: string, generateIdx: int)
      ensures View() == GenerationView(processing, currentState, stepText, generateIdx, [])
    {
      this.processing := processing;
      this.currentState := currentState;
      this.stepText := stepText;
      this.generateIdx := generateIdx;
      destImageUpdates := [];
    }

    /** The text-frame branch of the websocket message listener, on the parsed message. */
    method HandleTextMessage(msg: Value, loaderNodes: seq<string>, hostAndPort: string, generatingLabel: string)
      modifies this
      ensures View() == Reduce(old(View()), msg, loaderNodes, hostAndPort, generatingLabel)
    {
      var msgType := Member(Some(msg), "type");
      if msgType.TypeErrorThrown? {
        return;
      }
      var data := OptionalMember(Some(msg), "data");
      match KindOf(msgType.value) {
        case ProgressMessage =>
          currentState := GeneratingState;
          var value := Member(data, "value");
          if value.TypeErrorThrown? {
            return;
          }
          stepText := generatingLabel + " " + JsString(value.value) + "/" + JsString(OptionalMember(data, "max"));
        case ExecutingMessage =>
          if Member(data, "display_node").TypeErrorThrown? {
            return;
          }
          var node := OptionalMember(data, "node");
          if node.Some? && node.value.JString? && node.value.s in loaderNodes {
            currentState := LoadModelState;
          } else {
            currentState := GeneratingState;
          }
        case ExecutedMessage =>
          UpdateDestImages(OptionalMember(OptionalMember(data, "output"), "images"), hostAndPort);
        case ExecutionStartMessage =>
          processing := true;
        case ExecutionSuccessMessage =>
          processing := false;
        case ExecutionErrorMessage =>
          processing := false;
        case ExecutionInterruptedMessage =>
          processing := false;
        case _ =>
      }
    }

    /** The "executed" case: each output image goes to the next slot. */
    method UpdateDestImages(images: Option<Value>, hostAndPort: string)
      modifies this`generateIdx, this`destImageUpdates
      ensures images.None? || !images.value.JArray? || JNull in images.value.items ==>
        generateIdx == old(generateIdx) && destImageUpdates == old(destImageUpdates)
      ensures images.Some? && images.value.JArray? && JNull !in images.value.items ==>
        var outputs := OutputImages(images.value.items);
        generateIdx == old(generateIdx) + |outputs|
        && destImageUpdates == old(destImageUpdates) + DestUpdates(hostAndPort, old(generateIdx), outputs)
    {
      if images.None? || !images.value.JArray? || JNull in images.value.items {
        // `images.forEach` or the filter throws a TypeError, which the handler catches
        return;
      }
      var outputs := OutputImages(images.value.items);
      AppendUpdates(ImageUrls(hostAndPort, outputs));
    }

    /** The body of `images.forEach`: URL i goes to slot generateIdx, which then advances. */
    method AppendUpdates(urls: seq<string>)
      modifies this`generateIdx, this`destImageUpdates
      ensures generateIdx == old(generateIdx) + |urls|
      ensures destImageUpdates == old(destImageUpdates) + Numbered(old(generateIdx), urls)
    {
      var i := 0;
      while i < |urls|
        invariant 0 <= i <= |urls|
        invariant generateIdx == old(generateIdx) + i
        invariant destImageUpdates == old(destImageUpdates) + Numbered(old(generateIdx), urls[..i])
      {
        destImageUpdates := destImageUpdates + [(generateIdx, urls[i])];
        generateIdx := generateIdx + 1;
        i := i + 1;
      }
      assert urls[..i] == urls;
    }
  }
}
