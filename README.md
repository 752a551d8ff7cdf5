# my-PV switch entities and device profile table, in Dafny

This project models the switch entities of the my-PV home-automation
integration and the device profile table they read.

A switch stands for one writable field of the device's setup section:
`devmode`, `bstmode`, `legmode` or `cloudmode`. Its state is read from the
"setup" section of the snapshot cached by the integration's polling
coordinator. The switch writes a value with a `GET http://<host>/setup.jsn?<field>=<value>`
request, then overwrites the one cached field with the value the device
confirms in its JSON reply.

Modules:

- `Profiles` (profiles.dfy) holds the profile table. It has the `S` record
  with its defaults and the whole sensor table, 143 entries in source order.
  The table is split into blocks of related fields. It also holds the four
  switch names, the product-name table and the 10-second polling interval
  (`MinTimeBetweenUpdatesSeconds`). The unit constants take the string values
  the host platform gives `UnitOfPower.WATT` and its siblings: W, °C, d, V, A,
  Hz and %.
- `Coordinators` (coordinator.dfy) holds the coordinator state the switches
  share: `host`, `lastUpdateSuccess` and the cached snapshot `data`. It also
  defines the JSON scalar type, Python's `==` between a scalar and an int,
  and the Python exceptions the switch code can raise: `KeyError` for a
  missing key, the bare `KeyError()` the switch constructor raises for an
  unknown name, and a `TypeError` from subscripting `None`.
- `SetupRequests` (requests.dfy) builds the setup write URL, with the value
  in decimal as Python formats an int. It also has a parser that reads host,
  field and value back. The parser is the partner of the URL builder.
- `SwitchEntities` (switch.py's logic, in switch.dfy) holds the pure rules:
  construction (`Configure`), `is_on` (`SwitchState`), the single-field patch
  after a write (`PatchSetup`) and `async_update` (`UpdateState`). It also
  holds the `Switch` class. Its methods change the coordinator's cached
  snapshot in place.

Behaviour of the code worth knowing:

- `is_on` raises, and does not return "unknown", when the snapshot is None or
  has no "setup" key.
- A write overwrites the cached setup map in place. It does not swap in a new
  snapshot.
- The applicable models of a table entry are one space-separated string, not
  a set.
- `async_update` looks the switch's field up in the top level of the snapshot
  and compares it with 1. Under the modelled snapshot shape, where every
  top-level value is a section or None, it never reports "on".

## Model

| member | source | states |
|---|---|---|
| `Profiles.SDefaults` | custom_components/mypv/const.py:48-56 | An `S` built from a long name alone has unit, icon and device `""` and source `"data"`. |
| `Profiles.ReadingSensorsFromData` | custom_components/mypv/const.py:61-449 | Every table entry before the setup block reads the `"data"` section. |
| `Profiles.SetupBlockIsSwitches` | custom_components/mypv/const.py:450-464 | The setup block's keys are exactly the four switch names. Each of its entries has source `"setup"` and device `"elwa"`. |
| `Profiles.SourceOfEntry` | custom_components/mypv/const.py:60-465 | A table entry has source `"setup"` if and only if it is in the setup block. Otherwise its source is `"data"`. |
| `Profiles.SwitchesInSensorTypes` | custom_components/mypv/const.py:40-45 | Every switch name is a key of the sensor table, with source `"setup"` and device `"elwa"`. |
| `Profiles.SwitchesDistinct` | custom_components/mypv/const.py:40-45 | There are exactly four switch names, pairwise distinct. |
| `Profiles.DevicesInjective` | custom_components/mypv/const.py:26-38 | Distinct product names map to distinct model names. |
| `Coordinators.EqualsInt` | custom_components/mypv/switch.py:128 | Python's `==` between a JSON scalar and an int holds exactly for the same integer, or for `true` against 1 and `false` against 0. |
| `Coordinators.SectionOf` | custom_components/mypv/switch.py:123 | `data[name]` raises `TypeError` on a None snapshot and `KeyError(name)` on a missing section. Otherwise it gives the section, which may be None. |
| `Coordinators.FieldOf` | custom_components/mypv/switch.py:70-72 | `data[name][field]` succeeds exactly when the section exists, is not None and holds the field, and then gives the field's value. Otherwise it raises the section lookup's error, a `TypeError` for a None section, or `KeyError(field)`. |
| `Coordinators.Coordinator.constructor` | custom_components/mypv/switch.py:113-152 | The coordinator state the switches read and patch: the host, the last-update-success flag and the cached snapshot, as given. |
| `SetupRequests.Decimal` | custom_components/mypv/switch.py:136 | The decimal text of an int in the URL is a non-empty run of digits with no leading zero. `DecimalRoundTrip` is its partner. |
| `SetupRequests.SetupUrl` | custom_components/mypv/switch.py:135-136 | The URL is `http://<host>/setup.jsn?`, then the field, then `=` and the value's decimal text; its length is the sum of those parts. `SetupUrlRoundTrip` is its partner. |
| `SetupRequests.ParseDecimal` | custom_components/mypv/switch.py:136 | The parser accepts a string exactly when it is a non-empty run of decimal digits. |
| `SetupRequests.DecimalRoundTrip` | custom_components/mypv/switch.py:136 | The decimal text written for a value in the URL parses back to that value. |
| `SetupRequests.SetupUrlRoundTrip` | custom_components/mypv/switch.py:135-136 | For any host, and any field without `?` or `=`, the URL `http://<host>/setup.jsn?<field>=<value>` parses back to that host, field and value. |
| `SwitchEntities.OnValue` | custom_components/mypv/switch.py:74-77 | The on-value is 2 exactly for `bstmode` and 1 for every other field. |
| `SwitchEntities.UniqueId` | custom_components/mypv/switch.py:87 | The unique id is the key between the prefix `mypv_` and the suffix `_sw`. |
| `SwitchEntities.UniqueIdInjective` | custom_components/mypv/switch.py:87 | The id `mypv_<name>_sw` determines the name, so distinct switches get distinct ids. |
| `SwitchEntities.Configure` | custom_components/mypv/switch.py:62-87 | A name not in the sensor table fails with the bare `KeyError()` (`BareKeyError`). Construction succeeds exactly when the name is in the table and `info` holds `sn`, `fwversion` and `device`. It then stores the table's long name and icon, the on-value, the unique id and the three info values, so the attributes are consistent with the key. |
| `SwitchEntities.BuiltInSwitchesConfigure` | custom_components/mypv/switch.py:41-77 | For the four built-in names the name lookup never fails. Construction fails only when the device info cannot be read, and the on-value is 2 for `bstmode` and 1 for the others. |
| `SwitchEntities.BuiltInSwitchUrls` | custom_components/mypv/switch.py:135-148 | The on and off requests of each built-in switch parse back to its host, its field and the on-value or 0. |
| `SwitchEntities.SwitchState` | custom_components/mypv/switch.py:120-128 | `is_on` raises exactly when the snapshot is None or has no `setup` key. It is unknown exactly when the setup section is None or lacks the field. Otherwise it is whether the cached value equals the on-value. |
| `SwitchEntities.OnMeans` | custom_components/mypv/switch.py:128 | A cached value reads "on" if and only if it is the integer on-value, or JSON `true` for a switch whose on-value is 1. |
| `SwitchEntities.BoostModeOffBelowTwo` | custom_components/mypv/switch.py:74-128 | `bstmode` with a cached 0 or 1 reads "off". |
| `SwitchEntities.PatchSetup` | custom_components/mypv/switch.py:139-140 | A reply without the field fails with `KeyError(field)`. When the reply has the field, a None snapshot fails with `TypeError`, a missing setup section with `KeyError("setup")`, and a None setup section with `TypeError`. On success the cached `setup[field]` becomes the reply's value. Every other setup field and every other section stays unchanged, and no section is added or removed. |
| `SwitchEntities.WriteThenRead` | custom_components/mypv/switch.py:128-152 | Right after a successful write with confirmed value `v`, `is_on` returns `v == on_value`. |
| `SwitchEntities.WriteKeepsOtherSwitches` | custom_components/mypv/switch.py:140 | A write to one field leaves what every other switch reads unchanged. |
| `SwitchEntities.UpdateState` | custom_components/mypv/switch.py:154-162 | `async_update` gives None exactly when the snapshot is None or has no top-level entry for the key. Under the modelled snapshot shape it never returns true, because it compares a section with 1. |
| `SwitchEntities.Switch.constructor` | custom_components/mypv/switch.py:64-92 | Given attributes consistent with their key, the entity stores them and the coordinator, and is valid: its key is in the table, and its long name, icon, on-value and unique id are the ones the key determines. Its own `_state` starts as None. |
| `SwitchEntities.Switch.Create` | custom_components/mypv/switch.py:52-92 | Creating a switch fails with the same exception `Configure` gives. Otherwise it gives a fresh, valid entity with the given name, the table's long name, the on-value and the unique id. |
| `SwitchEntities.Switch.Name` | custom_components/mypv/switch.py:99-102 | The entity name is the sensor table's long name for its key. |
| `SwitchEntities.Switch.Available` | custom_components/mypv/switch.py:112-118 | The entity is available exactly when the coordinator's last update succeeded. |
| `SwitchEntities.Switch.IsOn` | custom_components/mypv/switch.py:120-128 | `is_on` applies `SwitchState` to the coordinator's current snapshot, with the key's on-value. |
| `SwitchEntities.Switch.Update` | custom_components/mypv/switch.py:154-162 | `async_update` on the current snapshot is never true, under the modelled snapshot shape. |
| `SwitchEntities.Switch.Write` | custom_components/mypv/switch.py:133-152 | Requests `http://<host>/setup.jsn?<field>=<value>`. The coordinator's snapshot becomes `PatchSetup`'s result on success and stays as it was on failure. Host and availability are unchanged. |
| `SwitchEntities.Switch.TurnOn` | custom_components/mypv/switch.py:130-140 | Requests `OnValue(key)`, the key's on-value. That URL parses back to host, field and on-value. On success `is_on` then reports the confirmed value against the on-value. A reply without the field fails and leaves the snapshot unchanged. Availability is unchanged. |
| `SwitchEntities.Switch.TurnOff` | custom_components/mypv/switch.py:142-152 | Requests 0, with the same guarantees as `TurnOn`. |

## Left out

- The HTTP session, `async with` and `await`, and `json.loads` are left out. The
  device's reply is a parameter holding the already-parsed JSON object. A reply
  that is not JSON, or not a JSON object, is not modelled.
- The polling coordinator's timer, fetch and single-flight behaviour are left
  out. coordinator.py is not part of this model. Only the state it publishes
  is modelled. Writes racing a poll is a concurrency matter outside a
  sequential model.
- Aliasing of the setup dictionary: the patch replaces the coordinator's
  `data` field with an updated map. Other holders of a reference to the same
  Python dict are not modelled.
- Home Assistant framework pieces are left out: the `CoordinatorEntity` and
  `SwitchEntity` base classes, `async_setup_entry` registration
  (switch.py lines 20-42), `device_info` (switch.py lines 164-174),
  `entity_type`, `has_entity_name`, the translation key and logging.
- The constants `DOMAIN`, `PLATFORMS` and `DATA_COORDINATOR` are only names
  the framework uses. They are left out.
- The top-level shape of the snapshot is assumed: every top-level value is a
  section or None. coordinator.py decides that shape and is not part of this
  model. `async_update` never returning true depends on it.
- Floating-point JSON values are left out. Numeric fields are integers.
- `SwitchEntities.Switch.TurnOn` and `SwitchEntities.Switch.TurnOff` state the URL
  round trip only for fields without `?` or `=`. Every key of the sensor table
  meets this, but the model proves it only for the four built-in switches.
