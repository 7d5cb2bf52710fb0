/**
 * Level Zero device discovery and selection, as pure definitions: the schema the
 * output of the discovery helper must satisfy, and what "the best device" means.
 */
module LevelZero {
  import opened Wrappers
  import opened Json
  import Strings

  /** One entry of the discovery helper's output: `{id, name, device_id}`. */
  datatype Device = Device(id: int, name: string, deviceId: int)

  /** Why the discovery output failed schema validation. */
  datatype SchemaError = NotAnArray | EmptyDeviceList | MalformedDevice(index: nat)

  /** The architecture tag reported for devices whose vendor id is not recognised. */
  const UnknownArch: string := "unknown"

  /** The priority the selection loop starts from; a device must beat it to be chosen. */
  const NoPriority: int := -1

  /** The key under which the device selector is handed to the worker process. */
  const SelectorKey: string := "ONEAPI_DEVICE_SELECTOR"

  /** The selector value prefix: level_zero:<ordinal>. */
  const SelectorPrefix: string := "level_zero:"

  /** The object schema `{id: number, name: string, device_id: number}`; other keys are ignored. */
  function ParseDevice(v: Value): Option<Device> {
    if v.JObject?
       && "id" in v.fields && v.fields["id"].JNumber?
       && "name" in v.fields && v.fields["name"].JString?
       && "device_id" in v.fields && v.fields["device_id"].JNumber?
    then Some(Device(v.fields["id"].n, v.fields["name"].s, v.fields["device_id"].n))
    else None
  }

  function EncodeDevice(d: Device): Value {
    JObject(map["id" := JNumber(d.id), "name" := JString(d.name), "device_id" := JNumber(d.deviceId)])
  }

  /** Index of the first element that fails the device schema, if any. */
  function FirstMalformed(items: seq<Value>): (r: Option<nat>)
    ensures r.None? <==> forall i | 0 <= i < |items| :: ParseDevice(items[i]).Some?
    ensures r.Some? ==> r.value < |items| && ParseDevice(items[r.value]).None?
                        && forall i | 0 <= i < r.value :: ParseDevice(items[i]).Some?
    decreases |items|
  {
    if items == [] then None
    else if ParseDevice(items[0]).None? then Some(0)
    else match FirstMalformed(items[1..])
      case None => None
      case Some(k) => Some(k + 1)
  }

  /**
   * The array schema: an array of at least one device. A successful parse keeps the
   * helper's order, element by element.
   */
  function ParseLsLevelZeroOut(v: Value): (r: Result<seq<Device>, SchemaError>)
    ensures r.Success? <==>
      v.JArray? && |v.items| >= 1 && forall i | 0 <= i < |v.items| :: ParseDevice(v.items[i]).Some?
    ensures r.Success? ==>
      |r.value| == |v.items| && forall i | 0 <= i < |v.items| :: ParseDevice(v.items[i]) == Some(r.value[i])
    ensures v.JArray? && v.items == [] ==> r == Failure(EmptyDeviceList)
    ensures !v.JArray? ==> r == Failure(NotAnArray)
  {
    if !v.JArray? then Failure(NotAnArray)
    else if |v.items| == 0 then Failure(EmptyDeviceList)
    else match FirstMalformed(v.items)
      case Some(k) => Failure(MalformedDevice(k))
      case None => Success(seq(|v.items|, i requires 0 <= i < |v.items| => ParseDevice(v.items[i]).value))
  }

  /** Every non-empty device list, printed as JSON by the helper, passes validation unchanged. */
  lemma ParseEncodeRoundTrip(ds: seq<Device>)
    requires |ds| >= 1
    ensures ParseLsLevelZeroOut(JArray(seq(|ds|, i requires 0 <= i < |ds| => EncodeDevice(ds[i])))) == Success(ds)
  {
    var items := seq(|ds|, i requires 0 <= i < |ds| => EncodeDevice(ds[i]));
    forall i | 0 <= i < |ds|
      ensures ParseDevice(items[i]) == Some(ds[i])
    {
      assert items[i] == EncodeDevice(ds[i]);
    }
    var r := ParseLsLevelZeroOut(JArray(items));
    assert r.Success?;
    assert r.value == ds;
  }

  /** The device list is indexed by `device.id`; that is sound only when ids are positions. */
  predicate IdsArePositions(ds: seq<Device>) {
    forall i | 0 <= i < |ds| :: ds[i].id == i
  }

  /** The helper numbers the devices it prints by their position in its output. */
  predicate DiscoveryWellNumbered(v: Value) {
    match ParseLsLevelZeroOut(v)
    case Success(ds) => IdsArePositions(ds)
    case Failure(_) => true
  }

  predicate HasKnownArch(d: Device, archOf: int -> string) {
    archOf(d.deviceId) != UnknownArch
  }

  function Priority(d: Device, archOf: int -> string, priorityOf: string -> int): int {
    priorityOf(archOf(d.deviceId))
  }

  /**
   * Device k is the one to select among the first n: its architecture is known, its
   * priority beats the starting priority, no known-architecture device has a higher
   * priority, and every earlier known-architecture device has a strictly lower one
   * (ties go to the first device seen).
   */
  predicate IsBestAmong(ds: seq<Device>, n: nat, k: int, archOf: int -> string, priorityOf: string -> int)
    requires n <= |ds|
  {
    && 0 <= k < n
    && HasKnownArch(ds[k], archOf)
    && Priority(ds[k], archOf, priorityOf) > NoPriority
    && (forall j | 0 <= j < n && HasKnownArch(ds[j], archOf) ::
          Priority(ds[j], archOf, priorityOf) <= Priority(ds[k], archOf, priorityOf))
    && (forall j | 0 <= j < k && HasKnownArch(ds[j], archOf) ::
          Priority(ds[j], archOf, priorityOf) < Priority(ds[k], archOf, priorityOf))
  }

  /** None of the first n devices can be selected. */
  predicate NoneSelectableAmong(ds: seq<Device>, n: nat, archOf: int -> string, priorityOf: string -> int)
    requires n <= |ds|
  {
    forall j | 0 <= j < n && HasKnownArch(ds[j], archOf) :: Priority(ds[j], archOf, priorityOf) <= NoPriority
  }

  /** The best device, when there is one, is unique. */
  lemma BestDeviceUnique(ds: seq<Device>, k1: int, k2: int, archOf: int -> string, priorityOf: string -> int)
    requires IsBestAmong(ds, |ds|, k1, archOf, priorityOf)
    requires IsBestAmong(ds, |ds|, k2, archOf, priorityOf)
    ensures k1 == k2
  {
  }

  /**
   * The device the selection loop settles on among the first n: -1 exactly when none
   * is selectable, and otherwise the best one.
   */
  function BestIndex(ds: seq<Device>, n: nat, archOf: int -> string, priorityOf: string -> int): (k: int)
    requires n <= |ds|
    ensures k == -1 <==> NoneSelectableAmong(ds, n, archOf, priorityOf)
    ensures k != -1 ==> IsBestAmong(ds, n, k, archOf, priorityOf)
    decreases n
  {
    if n == 0 then -1
    else
      var k := BestIndex(ds, n - 1, archOf, priorityOf);
      var last := ds[n - 1];
      var priority := if k == -1 then NoPriority else Priority(ds[k], archOf, priorityOf);
      if HasKnownArch(last, archOf) && Priority(last, archOf, priorityOf) > priority then n - 1 else k
  }

  /** The environment that pins the worker process to one device: level_zero:<id>. */
  function DeviceSelectorEnv(id: nat): (env: map<string, string>)
    ensures env.Keys == {SelectorKey}
    ensures SelectorPrefix <= env[SelectorKey]
    ensures var digits := env[SelectorKey][|SelectorPrefix|..];
      (forall i | 0 <= i < |digits| :: Strings.IsDigit(digits[i])) && Strings.DigitsValue(digits) == id
  {
    Strings.NatToStringRoundTrip(id);
    var value := SelectorPrefix + Strings.NatToString(id);
    assert value[|SelectorPrefix|..] == Strings.NatToString(id);
    map[SelectorKey := value]
  }

  /** Different devices never get the same selector. */
  lemma DeviceSelectorEnvInjective(a: nat, b: nat)
    requires DeviceSelectorEnv(a) == DeviceSelectorEnv(b)
    ensures a == b
  {
    assert DeviceSelectorEnv(a)[SelectorKey] == DeviceSelectorEnv(b)[SelectorKey];
  }
}
