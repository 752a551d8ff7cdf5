/**
 * The switch entity (custom_components/mypv/switch.py): one switch per
 * writable setup field of the device. It reads its state from the "setup"
 * section of the coordinator's snapshot and writes the device with a
 * `setup.jsn` request, then patches the one cached field with the value the
 * device confirms.
 */
module SwitchEntities {
  import opened Wrappers
  import opened Profiles
  import opened Coordinators
  import opened SetupRequests

  /** The value written to turn a switch off. */
  const OffValue: nat := 0

  /** The value that means "on": 2 for the hot-water boost mode, 1 for every other field. */
  function OnValue(key: string): (v: nat)
    ensures v == 2 <==> key == "bstmode"
    ensures v == 1 <==> key != "bstmode"
  {
    if key == "bstmode" then 2 else 1
  }

  /** The entity's unique id: the key between the prefix "mypv_" and the suffix "_sw". */
  function UniqueId(key: string): (id: string)
    ensures |id| == |key| + 8
    ensures id[..5] == "mypv_" && id[|id| - 3..] == "_sw"
    ensures id[5..|id| - 3] == key
  {
    "mypv_" + key + "_sw"
  }

  /** Distinct switches get distinct unique ids. */
  lemma UniqueIdInjective(a: string, b: string)
    requires UniqueId(a) == UniqueId(b)
    ensures a == b
  {
    var s := UniqueId(a);
    assert a == s[5..|s| - 3];
    assert b == UniqueId(b)[5..|UniqueId(b)| - 3];
  }

  /** What the constructor stores about one switch. */
  datatype Attributes = Attributes(
    key: string, nameLong: string, icon: string, onValue: nat, uniqueId: string,
    serialNumber: Scalar, fwVersion: Scalar, model: Scalar)

  /**
   * The attributes the constructor derives from the key: the key is in the
   * sensor table, and long name, icon, on-value and unique id follow from it.
   */
  predicate Consistent(a: Attributes)
  {
    && a.key in SensorTypes
    && a.nameLong == SensorTypes[a.key].nameLong
    && a.icon == SensorTypes[a.key].icon
    && a.onValue == OnValue(a.key)
    && a.uniqueId == UniqueId(a.key)
  }

  /** The three device-info fields the constructor reads can all be read. */
  predicate InfoReadable(data: Option<Snapshot>)
  {
    FieldOf(data, "info", "sn").Success? && FieldOf(data, "info", "fwversion").Success?
    && FieldOf(data, "info", "device").Success?
  }

  /**
   * The constructor's work: reject a name that is not in the sensor table,
   * read serial number, firmware version and model from the "info" section,
   * and fix the on-value and the unique id.
   */
  function Configure(name: string, data: Option<Snapshot>): (r: Result<Attributes, Error>)
    ensures name !in SensorTypes ==> r == Failure(BareKeyError)
    ensures r.Success? <==> name in SensorTypes && InfoReadable(data)
    ensures r.Success? ==> Consistent(r.value)
    ensures r.Success? ==>
      && r.value.key == name
      && r.value.nameLong == SensorTypes[name].nameLong
      && r.value.icon == SensorTypes[name].icon
      && r.value.onValue == OnValue(name)
      && r.value.uniqueId == "mypv_" + name + "_sw"
      && r.value.serialNumber == data.value["info"].value["sn"]
      && r.value.fwVersion == data.value["info"].value["fwversion"]
      && r.value.model == data.value["info"].value["device"]
  {
    if name !in SensorTypes then Failure(BareKeyError)
    else match FieldOf(data, "info", "sn")
      case Failure(e) => Failure(e)
      case Success(sn) =>
        match FieldOf(data, "info", "fwversion")
        case Failure(e) => Failure(e)
        case Success(fw) =>
          match FieldOf(data, "info", "device")
          case Failure(e) => Failure(e)
          case Success(model) =>
            var entry := SensorTypes[name];
            Success(Attributes(name, entry.nameLong, entry.icon, OnValue(name), UniqueId(name), sn, fw, model))
  }

  /** For the built-in switches the name lookup never fails: construction fails only on missing info. */
  lemma BuiltInSwitchesConfigure(n: string, data: Option<Snapshot>)
    requires n in Switches
    ensures Configure(n, data).Success? <==> InfoReadable(data)
    ensures Configure(n, data).Success? ==> Configure(n, data).value.onValue == (if n == "bstmode" then 2 else 1)
  {
    SwitchesInSensorTypes(n);
  }

  /** The on and off requests of a built-in switch carry exactly its host, field and value. */
  lemma BuiltInSwitchUrls(n: string, host: string)
    requires n in Switches
    ensures ParseSetupUrl(SetupUrl(host, n, OnValue(n))) == Some(SetupRequest(host, n, OnValue(n)))
    ensures ParseSetupUrl(SetupUrl(host, n, OffValue)) == Some(SetupRequest(host, n, OffValue))
  {
    assert '?' !in n && '=' !in n;
    SetupUrlRoundTrip(host, n, OnValue(n));
    SetupUrlRoundTrip(host, n, OffValue);
  }

  /**
   * `is_on`: None ("unknown") when the setup section is None or lacks the
   * field, otherwise whether the cached value equals the on-value. Reading a
   * snapshot that is None or has no "setup" key raises.
   */
  function SwitchState(data: Option<Snapshot>, key: string, onValue: int): (r: Result<Option<bool>, Error>)
    ensures r.Failure? <==> SectionOf(data, "setup").Failure?
    ensures r == Success(None) <==>
      SectionOf(data, "setup").Success? && FieldOf(data, "setup", key).Failure?
    ensures r.Success? && r.value.Some? ==>
      r.value.value == EqualsInt(data.value["setup"].value[key], onValue)
  {
    match SectionOf(data, "setup")
    case Failure(e) => Failure(e)
    case Success(None) => Success(None)
    case Success(Some(setup)) =>
      if key !in setup then Success(None) else Success(Some(EqualsInt(setup[key], onValue)))
  }

  /** A switch reads "on" for exactly the on-value; the boost mode only for the integer 2. */
  lemma OnMeans(v: Scalar, key: string)
    ensures EqualsInt(v, OnValue(key)) <==> v == Int(OnValue(key)) || (key != "bstmode" && v == Bool(true))
  {
  }

  /** The boost mode's intermediate device states 0 and 1 both read as "off". */
  lemma BoostModeOffBelowTwo(data: Snapshot, v: int)
    requires "setup" in data && data["setup"].Some? && "bstmode" in data["setup"].value
    requires data["setup"].value["bstmode"] == Int(v) && (v == 0 || v == 1)
    ensures SwitchState(Some(data), "bstmode", OnValue("bstmode")) == Success(Some(false))
  {
  }

  /**
   * The single-field patch after a write: the reply's value for `key`
   * becomes the cached setup value. The reply lacking `key`, a missing
   * snapshot, a missing or None setup section each raise before anything changes.
   */
  function PatchSetup(data: Option<Snapshot>, key: string, reply: Section): (r: Result<Snapshot, Error>)
    ensures key !in reply ==> r == Failure(KeyError(key))
    ensures key in reply && SectionOf(data, "setup").Failure? ==> r == Failure(SectionOf(data, "setup").error)
    ensures key in reply && SectionOf(data, "setup") == Success(None) ==> r == Failure(NotSubscriptable)
    ensures r.Success? <==> key in reply && SectionOf(data, "setup").Success?
                            && SectionOf(data, "setup").value.Some?
    ensures r.Success? ==>
      && r.value.Keys == data.value.Keys
      && (forall s :: s in data.value && s != "setup" ==> r.value[s] == data.value[s])
      && r.value["setup"].Some?
      && r.value["setup"].value.Keys == data.value["setup"].value.Keys + {key}
      && r.value["setup"].value[key] == reply[key]
      && (forall f :: f in data.value["setup"].value && f != key ==>
            r.value["setup"].value[f] == data.value["setup"].value[f])
  {
    if key !in reply then Failure(KeyError(key))
    else match SectionOf(data, "setup")
      case Failure(e) => Failure(e)
      case Success(None) => Failure(NotSubscriptable)
      case Success(Some(setup)) => Success(data.value["setup" := Some(setup[key := reply[key]])])
  }

  /** Right after a successful write, the switch reads the confirmed value against its on-value. */
  lemma WriteThenRead(data: Option<Snapshot>, key: string, reply: Section, onValue: int)
    requires PatchSetup(data, key, reply).Success?
    ensures SwitchState(Some(PatchSetup(data, key, reply).value), key, onValue)
            == Success(Some(EqualsInt(reply[key], onValue)))
  {
  }

  /** A write to one field leaves what every other switch reads unchanged. */
  lemma WriteKeepsOtherSwitches(data: Option<Snapshot>, key: string, reply: Section, other: string, onValue: int)
    requires PatchSetup(data, key, reply).Success? && other != key
    ensures SwitchState(Some(PatchSetup(data, key, reply).value), other, onValue)
            == SwitchState(data, other, onValue)
  {
  }

  /**
   * `async_update`: looks the switch's key up in the top level of the
   * snapshot, not in its setup section, and compares with 1. A top-level
   * entry is a section (a dict or None), which never equals an int.
   */
  function UpdateState(data: Option<Snapshot>, key: string): (r: Option<bool>)
    ensures r.None? <==> data.None? || key !in data.value
    ensures r != Some(true)
  {
    match data
    case None => None
    // `d[key] == 1` compares a dict or None with an int: always False in Python.
    case Some(d) => if key !in d then None else Some(false)
  }

  /** One entity per switchable field. */
  class Switch {
    const coordinator: Coordinator
    const key: string
    const nameLong: string
    const icon: string
    const onValue: nat
    const uniqueId: string
    const serialNumber: Scalar
    const fwVersion: Scalar
    const model: Scalar
    var state: Option<bool>

    /** The key is a table entry, and long name, icon, on-value and unique id are the ones it determines. */
    ghost predicate Valid()
    {
      Consistent(Attributes(key, nameLong, icon, onValue, uniqueId, serialNumber, fwVersion, model))
    }

    /** Stores the attributes `Configure` computed; the entity's own state starts unknown. */
    constructor (coordinator: Coordinator, attributes: Attributes)
      requires Consistent(attributes)
      ensures Valid()
      ensures this.coordinator == coordinator && key == attributes.key
      ensures nameLong == attributes.nameLong && icon == attributes.icon
      ensures onValue == attributes.onValue && uniqueId == attributes.uniqueId
      ensures serialNumber == attributes.serialNumber && fwVersion == attributes.fwVersion
      ensures model == attributes.model && state == None
    {
      this.coordinator := coordinator;
      key := attributes.key;
      nameLong := attributes.nameLong;
      icon := attributes.icon;
      onValue := attributes.onValue;
      uniqueId := attributes.uniqueId;
      serialNumber := attributes.serialNumber;
      fwVersion := attributes.fwVersion;
      model := attributes.model;
      state := None;
    }

    /** Creates the switch for `name`, or returns the exception the constructor raises. */
    static method Create(coordinator: Coordinator, name: string) returns (r: Result<Switch, Error>)
      ensures r.Failure? <==> Configure(name, coordinator.data).Failure?
      ensures r.Failure? ==> r.error == Configure(name, coordinator.data).error
      ensures r.Success? ==>
        && fresh(r.value) && r.value.Valid() && r.value.coordinator == coordinator && r.value.key == name
        && r.value.nameLong == SensorTypes[name].nameLong && r.value.Name() == SensorTypes[name].nameLong
        && r.value.onValue == OnValue(name) && r.value.uniqueId == UniqueId(name)
        && r.value.state == None
    {
      match Configure(name, coordinator.data)
      case Failure(e) =>
        r := Failure(e);
      case Success(attributes) =>
        var s := new Switch(coordinator, attributes);
        r := Success(s);
    }

    /** The entity name: the long name from the sensor table. */
    function Name(): (n: string)
      requires Valid()
      ensures n == SensorTypes[key].nameLong
    {
      nameLong
    }

    /** Available exactly when the coordinator's last update succeeded. */
    function Available(): (b: bool)
      reads coordinator
      ensures b <==> coordinator.lastUpdateSuccess
    {
      coordinator.lastUpdateSuccess
    }

    /** `is_on` over the coordinator's current snapshot. */
    function IsOn(): (r: Result<Option<bool>, Error>)
      requires Valid()
      reads coordinator
      ensures r == SwitchState(coordinator.data, key, OnValue(key))
    {
      SwitchState(coordinator.data, key, onValue)
    }

    /** `async_update` over the coordinator's current snapshot. */
    function Update(): (r: Option<bool>)
      reads coordinator
      ensures r != Some(true)
    {
      UpdateState(coordinator.data, key)
    }

    /**
     * Requests `value` for this field and patches the cache with the reply,
     * the device's already-parsed JSON answer. Returns the URL requested.
     */
    method Write(value: nat, reply: Section) returns (url: string, outcome: Outcome<Error>)
      modifies coordinator
      ensures url == SetupUrl(coordinator.host, key, value)
      ensures coordinator.host == old(coordinator.host)
      ensures coordinator.lastUpdateSuccess == old(coordinator.lastUpdateSuccess)
      ensures match PatchSetup(old(coordinator.data), key, reply)
        case Success(d) => outcome == Pass && coordinator.data == Some(d)
        case Failure(e) => outcome == Fail(e) && coordinator.data == old(coordinator.data)
    {
      url := SetupUrl(coordinator.host, key, value);
      match PatchSetup(coordinator.data, key, reply)
      case Failure(e) =>
        outcome := Fail(e);
      case Success(d) =>
        coordinator.data := Some(d);
        outcome := Pass;
    }

    /** `async_turn_on`: writes the on-value; on success the switch then reads the confirmed value. */
    method TurnOn(reply: Section) returns (url: string, outcome: Outcome<Error>)
      requires Valid()
      modifies coordinator
      ensures url == SetupUrl(coordinator.host, key, OnValue(key))
      ensures '?' !in key && '=' !in key ==>
        ParseSetupUrl(url) == Some(SetupRequest(coordinator.host, key, OnValue(key)))
      ensures coordinator.host == old(coordinator.host)
      ensures Available() == old(Available())
      ensures outcome.Pass? <==> PatchSetup(old(coordinator.data), key, reply).Success?
      ensures outcome.Pass? ==> coordinator.data == Some(PatchSetup(old(coordinator.data), key, reply).value)
      ensures outcome.Pass? ==> IsOn() == Success(Some(EqualsInt(reply[key], OnValue(key))))
      ensures outcome.Fail? ==> coordinator.data == old(coordinator.data)
      ensures key !in reply ==> outcome == Fail(KeyError(key))
    {
      url, outcome := Write(onValue, reply);
      if '?' !in key && '=' !in key {
        SetupUrlRoundTrip(coordinator.host, key, onValue);
      }
      if outcome.Pass? {
        WriteThenRead(old(coordinator.data), key, reply, onValue);
      }
    }

    /** `async_turn_off`: writes 0; on success the switch then reads the confirmed value. */
    method TurnOff(reply: Section) returns (url: string, outcome: Outcome<Error>)
      requires Valid()
      modifies coordinator
      ensures url == SetupUrl(coordinator.host, key, OffValue)
      ensures '?' !in key && '=' !in key ==>
        ParseSetupUrl(url) == Some(SetupRequest(coordinator.host, key, OffValue))
      ensures coordinator.host == old(coordinator.host)
      ensures Available() == old(Available())
      ensures outcome.Pass? <==> PatchSetup(old(coordinator.data), key, reply).Success?
      ensures outcome.Pass? ==> coordinator.data == Some(PatchSetup(old(coordinator.data), key, reply).value)
      ensures outcome.Pass? ==> IsOn() == Success(Some(EqualsInt(reply[key], OnValue(key))))
      ensures outcome.Fail? ==> coordinator.data == old(coordinator.data)
      ensures key !in reply ==> outcome == Fail(KeyError(key))
    {
      url, outcome := Write(OffValue, reply);
      if '?' !in key && '=' !in key {
        SetupUrlRoundTrip(coordinator.host, key, OffValue);
      }
      if outcome.Pass? {
        WriteThenRead(old(coordinator.data), key, reply, onValue);
      }
    }
  }
}
