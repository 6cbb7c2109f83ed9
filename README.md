# Toon smart-meter sensor: discovery and value extraction

This project models the sensor platform of the Toon smart-meter integration
for Home Assistant. A shared data object (`ToonSmartMeterData`) caches the
device list that the Toon gateway returns. One sensor object
(`ToonSmartMeterSensor`) exists per configured resource. On each update a
sensor refreshes the shared data. If the device list is non-empty, the sensor
may first run discovery: this happens once, on the first non-empty list, and
maps the table-driven channels to device keys by the records' `type` tags in
the `_dev_id` table. The sensor then reads its own channel's field, from the
table's key or from the first present well-known key, and divides it by 1000
for the counter, gas and heat channels.

Modules:

- `Wrappers`: `Option`.
- `Channels`: the fifteen resources, SENSOR_TYPES (title, unit, icon), the
  five meter roles with their type lists, and per channel the field read, the
  scaling and the well-known candidate keys.
- `Snapshots`: a device record (`type` tag plus real-valued fields), the device
  list as a sequence of key/record pairs with distinct keys in iteration
  order, key lookup, `latest_data`'s truthiness rule and the fetch outcome.
- `Discovery`: the discovery loop as pure functions (`Register` for one record,
  `Discover` for the list) and what it records.
- `Resolution`: which key a channel reads (`SourceKey`, `FirstPresent`) and the
  value it produces (`Reading`).
- `Sensors`: the specification of one update (`DiscoveryStep`, `NextState`), a
  series of updates (`RunLatch`), and the classes `ToonData` and `Sensor`.
  `Sensor.Update` runs the discovery loop in place on the `devId` field.
  `SetupPlatform` does the entity construction.

The sensor's resource is typed as a `Channel`. The configuration schema only
admits keys of SENSOR_TYPES, and those keys are already lower-case, so
`resource.lower()` is the identity on them. The `_dev_id` table is therefore a
`map<Channel, string>` keyed by the channel that the source names by its
string; `Channels.NameInjective` shows that no two channels share a name.

This `sensor.py` has no "NaN" guard in discovery and no NaN-to-0 mapping. It
probes no well-known keys beyond those listed below. It has no water or
power-plug channels. A record whose type matches is registered whatever its
fields hold. The single gas record of `Sensors.GasExample` shows the
division by 1000 on both gas channels.

## Model

| member | source | states |
|---|---|---|
| `Channels.DisplayName` | custom_components/toon_smartmeter/sensor.py:86-93 | an entity name is the prefix "Toon " followed by exactly the resource's non-empty title from SENSOR_TYPES |
| `Channels.DisplayNameInjective` | custom_components/toon_smartmeter/sensor.py:51-67 | two different resources never get the same entity name |
| `Channels.NameInjective` | custom_components/toon_smartmeter/sensor.py:51-67 | distinct resources have distinct SENSOR_TYPES keys, so a table keyed by channel stands for `_dev_id`'s name-keyed dict |
| `Channels.FlowOf` | custom_components/toon_smartmeter/sensor.py:194-212 | the instantaneous channel that a role's type test writes belongs to that role |
| `Channels.CounterOf` | custom_components/toon_smartmeter/sensor.py:194-212 | each role's type test writes a second, cumulative channel; it belongs to the same role, differs from the flow channel and is scaled |
| `Channels.RoleChannels` | custom_components/toon_smartmeter/sensor.py:194-212 | a channel belongs to a role exactly when it is that role's flow or counter channel |
| `Channels.TableOrCandidates` | custom_components/toon_smartmeter/sensor.py:216-288 | each channel resolves either through `_dev_id` or through well-known keys, never both |
| `Channels.Convert` | custom_components/toon_smartmeter/sensor.py:216-288 | scaled channels store a value whose thousandfold is the raw field; the others store the raw field unchanged |
| `Channels.ScalingRule` | custom_components/toon_smartmeter/sensor.py:51-67 | a channel divides by 1000 exactly when it does not read CurrentElectricityFlow, and exactly when its unit is not Watt |
| `Snapshots.Lookup` | custom_components/toon_smartmeter/sensor.py:225-238 | `key in energy` fails exactly when no pair carries the key; otherwise the result is the record of a pair with that key |
| `Snapshots.LookupAt` | custom_components/toon_smartmeter/sensor.py:191-192 | in a list with distinct keys, every listed key looks up exactly its own record |
| `Snapshots.LatestData` | custom_components/toon_smartmeter/sensor.py:138-143 | `latest_data` is present exactly when the cached data is present and non-empty, and is then that data |
| `Snapshots.AfterFetch` | custom_components/toon_smartmeter/sensor.py:112-136 | a connection error, another download error or a parse error leaves no data; a decoded body is stored; a throttled call keeps the old data |
| `Discovery.RegisterEntry` | custom_components/toon_smartmeter/sensor.py:192-212 | one record sets both channels of every role whose type list holds its type to its key, and leaves every other entry alone |
| `Discovery.DiscoverLastMatch` | custom_components/toon_smartmeter/sensor.py:191-212 | if several records match a role, both of its channels end up with the key of the last matching one in iteration order |
| `Discovery.DiscoverNoMatch` | custom_components/toon_smartmeter/sensor.py:191-212 | a role that no record matches keeps the entries its channels had before the loop |
| `Discovery.DiscoverKeys` | custom_components/toon_smartmeter/sensor.py:194-212 | discovery never writes an entry for a channel without a role |
| `Discovery.LastMatch` | custom_components/toon_smartmeter/sensor.py:191-212 | a role with some matching record has a last matching record at or after it |
| `Discovery.DiscoverFromEmpty` | custom_components/toon_smartmeter/sensor.py:187-214 | starting from the empty table, only table-driven channels get entries, and a role's two channels are both absent or share a key; they are present exactly when some record matches, and then they hold the key of the last matching record |
| `Discovery.HaeMeterTwoRoles` | custom_components/toon_smartmeter/sensor.py:198-210 | a last record of type HAE_METER_v3_5 gives its key to elecusage*low and to elecprod*high |
| `Resolution.FirstPresent` | custom_components/toon_smartmeter/sensor.py:224-238 | the result is the first candidate key present in the list: every earlier candidate is absent; none means no candidate is present |
| `Resolution.PriorityOrder` | custom_components/toon_smartmeter/sensor.py:272-288 | a well-known-key channel reads candidate i exactly when that candidate is present and no earlier one is (pulse: dev_3.2, dev_2.2, dev_4.2; solar: dev_2.3, dev_4.3; heat: dev_2.8, dev_4.8) |
| `Resolution.ReadingValue` | custom_components/toon_smartmeter/sensor.py:216-288 | a resolved read yields the field of the record with the resolved key, divided by 1000 for scaled channels; an unresolved one yields nothing |
| `Sensors.EmptyChangesNothing` | custom_components/toon_smartmeter/sensor.py:184-186 | an absent or empty device list leaves the latch, the table and the value unchanged |
| `Sensors.MissKeepsValue` | custom_components/toon_smartmeter/sensor.py:216-288 | a channel that resolves no key keeps its previous value and is not cleared |
| `Sensors.StepKeepsValid` | custom_components/toon_smartmeter/sensor.py:187-214 | each update keeps the latch invariant: the table is empty until discovery and always paired |
| `Sensors.DiscoveredIsFrozen` | custom_components/toon_smartmeter/sensor.py:187-214 | once the latch is set, no series of later device lists, whatever their layout, changes the table |
| `Sensors.NoDataNoDiscovery` | custom_components/toon_smartmeter/sensor.py:186-187 | a series of absent or empty device lists never runs discovery |
| `Sensors.FirstDataDecides` | custom_components/toon_smartmeter/sensor.py:186-214 | after any series of updates, the latch is set and the table is discovery applied to the first non-empty list alone |
| `Sensors.RunKeepsValid` | custom_components/toon_smartmeter/sensor.py:156-214 | every latch reachable from a valid one is valid |
| `Sensors.GasExample` | custom_components/toon_smartmeter/sensor.py:194-222 | one "gas" record with flow 300 and quantity 5000 is recorded for both gas channels; gasused shows 0.3 and gasusedcnt shows 5 |
| `Sensors.ToonData.constructor` | custom_components/toon_smartmeter/sensor.py:101-109 | a new data object keeps host and port and has no data |
| `Sensors.ToonData.Update` | custom_components/toon_smartmeter/sensor.py:111-136 | any connection, download or parse failure sets the data to none; a decoded body is stored; a throttled call changes nothing |
| `Sensors.Sensor.constructor` | custom_components/toon_smartmeter/sensor.py:148-158 | a new sensor has no value, an open latch and an empty table |
| `Sensors.Sensor.Update` | custom_components/toon_smartmeter/sensor.py:180-290 | refreshes the shared data, then moves the latch and table by DiscoveryStep and the value by NextState over the new `latest_data`; keeps the sensor invariant |
| `Sensors.Sensor.RunDiscovery` | custom_components/toon_smartmeter/sensor.py:191-214 | the in-place loop over the records leaves the table equal to Discover of the old table and the list |
| `Sensors.Sensor.RegisterDevice` | custom_components/toon_smartmeter/sensor.py:192-212 | one pass of the loop body updates the table as Register does |
| `Sensors.SetupPlatform` | custom_components/toon_smartmeter/sensor.py:76-95 | creates one shared data object, fetches once, and creates a sensor per resource, each a distinct new object, with the title-derived name, unit and icon, no value, an open latch and an empty table |

## Left out

- HTTP: the GET of `http://{host}:{port}/hdrv_zwave?action=getDevices.json`, the client session, the 5-second timeout and `response.json`. A fetch is an abstract outcome (`Fetch`), and the URL string is not built.
- The `Throttle` decorator: how often it lets a call through is defined in a library that is not part of this model. A skipped call is the `Throttled` outcome, which leaves the cached data unchanged.
- Async scheduling and the entity lifecycle, including `async_add_entities` with its update-before-add flag. A sensor's update is a method called in sequence.
- The entity property getters `name`, `icon`, `state` and `unit_of_measurement`. Each returns its field, and the fields are modelled.
- The configuration schema: resources are `Channel` values, which is exactly what the schema guarantees, and `lower()` on those keys is the identity.
- Logging.
- Float details: the string-to-float conversion, NaN and rounding. Fields are exact reals. The flow channels store the wire value without `float()`; the model treats it as the same real.
- A decoded body that is not an object of records (a list, a number) is not modelled: `Decoded` carries a device list.
- Sensors.Sensor.Update: the KeyError crashes are a precondition (`UpdateReadable`). The resolved key must still be in the list, and its record must have the channel's field. A record without a `type` cannot be expressed, because every `Device` has a `kind`.
- Resolution.Reading: requires `Readable` for the same reason, instead of modelling the exception.
