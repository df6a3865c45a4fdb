# Ducobox Connectivity Board — a Dafny model

This project models the core of the Home Assistant integration for the Duco
"Connectivity Board" ventilation box:

- `safe_get` and the value normalisers (`model/utils.py`);
- the sensor catalog (`model/devices.py`);
- the data coordinators (`model/coordinator.py` and its older sibling
  `model/coordinators.py`), which poll the box and build the node id to
  name and node id to type mappings;
- the set-up of the sensor, number and select platforms (`sensor.py`,
  `number.py`, `select.py`), which turn a coordinator snapshot into entities;
- the number and select entities, which overwrite their state when the user
  sets a value;
- the configuration flow (`config_flow.py`): manual entry with a URL probe,
  and discovery over mDNS with a confirmation step.

The model works on a JSON value datatype (`Json.Json`). A dict is an ordered
list of entries, because Python dicts keep insertion order and the setup
loops iterate `node.items()`. An exception is the `Raised` result of
`Json.Result`. The calls to the `ducopy` client, the result of the probe
request and the set of already configured unique ids are parameters.

Modules, one per source file plus two shared ones:

| module | file | models |
|---|---|---|
| `Text` | text.dfy | the Python string operations the core uses (`str(int)`, `lower`, `replace`, `split`, `strip`, `rstrip`) |
| `Json` | json.dfy | JSON values, `dict.get`, `dict[k] = v`, `{**a, **b}`, truthiness, `d[k]` |
| `Utils` | utils.dfy | `safe_get` and the `process_*` normalisers |
| `Devices` | devices.dfy | `SENSORS` and `NODE_SENSORS` as a constant catalog |
| `Coordinator` | coordinator.dfy | the current coordinator, the set-value payload and the sensor entities' values |
| `LegacyCoordinator` | coordinators.dfy | the older coordinator without static data |
| `Entities` | entities.dfy | what the three setups share: MAC address, device id, unique ids, the node loop |
| `SensorPlatform` | sensor.dfy | `sensor.py` setup |
| `NumberPlatform` | number.dfy | `number.py` setup and `DucoboxNumberEntity` |
| `SelectPlatform` | select.dfy | `select.py` setup and `DucoboxVentilationStateSelectEntity` |
| `ConfigFlow` | config_flow.dfy | `config_flow.py` user, zeroconf and confirm steps |

Each setup loop is a method proved equal to a specification function
(`SensorPlatform.SetupSensors` ensures `r == SensorSetup(data)`). The
properties of the setup are lemmas about those functions.

## Model

| member | source | states |
|---|---|---|
| Text.DecimalRoundTrip | custom_components/ducobox-connectivity-board/sensor.py:71 | `str(n)` of an integer parses back to n, so node ids rendered into unique ids can be recovered |
| Text.DecimalInjective | custom_components/ducobox-connectivity-board/sensor.py:71 | different integers render as different strings |
| Text.DecimalOfNatHasNoSign | custom_components/ducobox-connectivity-board/sensor.py:71 | a non-negative node id renders without '-', so it cannot be confused with the dash separators of unique ids |
| Text.Lower | custom_components/ducobox-connectivity-board/sensor.py:33 | `lower()` keeps the length and lowers each character in place |
| Text.LowerIdempotent | custom_components/ducobox-connectivity-board/sensor.py:33 | lowering twice is lowering once |
| Text.ReplaceChar | custom_components/ducobox-connectivity-board/sensor.py:38 | `replace(a, b)` keeps the length and swaps exactly the occurrences of a |
| Text.RemoveChar | custom_components/ducobox-connectivity-board/sensor.py:33 | `replace(":", "")` removes every ':' and keeps every other character that was there |
| Text.RemoveCharCounts | custom_components/ducobox-connectivity-board/sensor.py:33 | exactly the occurrences of the removed character go: every other character keeps its count |
| Text.RemoveCharAppend | custom_components/ducobox-connectivity-board/sensor.py:33 | removal works piece by piece, so the kept characters stay in their order |
| Text.RemoveCharSingle | custom_components/ducobox-connectivity-board/sensor.py:33 | on one character: the removed one disappears, any other stays |
| Text.LowerAppend | custom_components/ducobox-connectivity-board/sensor.py:33 | `lower()` works piece by piece |
| Text.ReplaceCharAppend | custom_components/ducobox-connectivity-board/sensor.py:38 | `replace(a, b)` works piece by piece |
| Text.SplitPiecesAvoidSeparator | custom_components/ducobox-connectivity-board/config_flow.py:60 | no piece of `split(c)` contains c |
| Text.JoinSplit | custom_components/ducobox-connectivity-board/config_flow.py:60 | joining the pieces of `split(c)` with c gives back the string |
| Text.SplitHasSecondPiece | custom_components/ducobox-connectivity-board/config_flow.py:60 | `split(c)[1]` exists exactly when c occurs in the string |
| Text.SplitAtFirst | custom_components/ducobox-connectivity-board/config_flow.py:60 | the first piece is the text before the first separator and the rest splits on its own |
| Text.SplitFirstPiece | custom_components/ducobox-connectivity-board/config_flow.py:60 | `split(c)[0]` is the text before the first c |
| Text.SplitSecondPiece | custom_components/ducobox-connectivity-board/config_flow.py:60 | `split(c)[1]` is the text after the first c up to the next one |
| Text.StripLeft | custom_components/ducobox-connectivity-board/config_flow.py:60 | the result is a suffix that starts outside the set and everything cut off is in the set |
| Text.StripRight | custom_components/ducobox-connectivity-board/config_flow.py:38 | the result is a prefix that ends outside the set and everything cut off is in the set |
| Text.Strip | custom_components/ducobox-connectivity-board/sensor.py:38 | the result is a middle slice of the input, everything cut off on either side is in the set, and the result neither starts nor ends with a character of the set |
| Text.StripOfTrimmed | custom_components/ducobox-connectivity-board/sensor.py:38 | a text between two runs of set characters, whose own ends are outside the set, is exactly what `strip` returns |
| Text.StripKeepsCharacters | custom_components/ducobox-connectivity-board/sensor.py:38 | stripping adds no character |
| Json.Get | custom_components/ducobox-connectivity-board/model/utils.py:5 | `dict.get` of a missing key is None |
| Json.Assign | custom_components/ducobox-connectivity-board/model/coordinator.py:86-87 | `d[k] = v` adds k to the keys, makes `d.get(k)` be v, leaves every other key's value alone, and appends only a new key |
| Json.Overlay | custom_components/ducobox-connectivity-board/model/coordinator.py:90 | the keys of `{**a, **b}` are the keys of both |
| Json.OverlayGet | custom_components/ducobox-connectivity-board/model/coordinator.py:90 | in `{**a, **b}` a key of b takes b's value and any other key a's |
| Json.Subscript | custom_components/ducobox-connectivity-board/number.py:58 | `d[k]` succeeds exactly on a dict that has k |
| Json.GetOr | custom_components/ducobox-connectivity-board/select.py:64 | `d.get(k, default)` succeeds exactly on a dict |
| Json.Iterate | custom_components/ducobox-connectivity-board/sensor.py:64 | `for x in v` raises exactly on values that are not a list, dict or string; a list yields its items, a dict its keys in order, a string its one-character strings |
| Json.Show | custom_components/ducobox-connectivity-board/sensor.py:71 | `str()` of an integer id reads back as that integer, `str()` of a string is the string itself, and None and booleans render as `None`, `True` or `False` |
| Utils.Lookup | custom_components/ducobox-connectivity-board/model/utils.py:1-8 | a result is the walk down the keys; hashable keys never raise; a raise needs an unhashable key met at a dict |
| Utils.SafeGet | custom_components/ducobox-connectivity-board/model/utils.py:1-8 | the loop of `safe_get` returns exactly `Lookup(data, keys)` |
| Utils.LookupAfterPath | custom_components/ducobox-connectivity-board/number.py:59-60 | a lookup along string keys then one more key raises only when that key is unhashable and the value reached is a dict |
| Utils.WalkFromNull | custom_components/ducobox-connectivity-board/model/utils.py:3-7 | once None is reached every further key keeps None |
| Utils.WalkMissingKey | custom_components/ducobox-connectivity-board/model/utils.py:4-5 | a missing key gives None whatever keys follow |
| Utils.WalkAbsentLikeNull | custom_components/ducobox-connectivity-board/model/utils.py:4-5 | an absent key and a key mapped to None give the same result |
| Utils.WalkAppend | custom_components/ducobox-connectivity-board/model/utils.py:1-8 | walking `ks1 + ks2` is walking ks1 then ks2 |
| Utils.RoundHalfEven | custom_components/ducobox-connectivity-board/model/utils.py:77 | `round` gives an integer within 0.5 of x, and the even one on a tie |
| Utils.RoundHalfEvenUnique | custom_components/ducobox-connectivity-board/model/utils.py:77 | any integer with those two properties is the rounding |
| Utils.RoundHalfEvenOfInteger | custom_components/ducobox-connectivity-board/model/utils.py:77 | an integer rounds to itself |
| Utils.Truncate | custom_components/ducobox-connectivity-board/number.py:83-86 | `int()` of a float truncates toward zero |
| Utils.ProcessTemperature | custom_components/ducobox-connectivity-board/model/utils.py:36-40 | None stays None; a number becomes the value whose tenfold is the input; anything else raises |
| Text.ParseFloat | custom_components/ducobox-connectivity-board/model/utils.py:52 | `float()` of a digit string is its number; a string it accepts holds only digits, '-' and '.' |
| Text.ParseFloatOfDecimal | custom_components/ducobox-connectivity-board/model/utils.py:52 | `float(str(n))` is n for every integer n |
| Utils.FloatOf | custom_components/ducobox-connectivity-board/model/utils.py:52 | `float(v)`: numbers give their value, strings their decimal reading or a raise, None and containers raise |
| Utils.FloatOfDecimalText | custom_components/ducobox-connectivity-board/model/utils.py:77 | `float()` reads back the decimal text of any integer |
| Utils.ProcessPressure | custom_components/ducobox-connectivity-board/model/utils.py:48-53 | None stays None; anything `float()` reads is scaled by one tenth, numeric strings included; the value raises exactly when `float()` does |
| Utils.ProcessBypassPosition | custom_components/ducobox-connectivity-board/model/utils.py:73-78 | None stays None; anything `float()` reads, numeric strings included, becomes the nearest integer, the even one on a tie; the value raises exactly when `float()` does |
| Utils.Normalise | custom_components/ducobox-connectivity-board/model/utils.py:11-78 | every normaliser maps None, and only None, to None; the pass-through ones return their input |
| Utils.PressureScalesLikeTemperature | custom_components/ducobox-connectivity-board/model/utils.py:36-53 | on None and on numbers, over exact reals, `float(v) * .1` and `v / 10.0` agree |
| Utils.PressureReadsNumericText | custom_components/ducobox-connectivity-board/model/utils.py:36-78 | where they differ: the decimal text of n gives n/10 as a pressure and n as a bypass position, while the temperature raises |
| Utils.BypassPositionKeepsIntegers | custom_components/ducobox-connectivity-board/model/utils.py:73-78 | an integer bypass position is returned unchanged |
| Utils.NormaliserExamples | custom_components/ducobox-connectivity-board/model/utils.py:36-78 | worked values: 215 tenths is 21.5 degrees, 2.5 rounds to 2 and 3.5 to 4 |
| Utils.PressureTextExample | custom_components/ducobox-connectivity-board/model/utils.py:48-53 | the text "123" is a pressure of 12.3 |
| Utils.BypassTextExample | custom_components/ducobox-connectivity-board/model/utils.py:73-78 | the text "57.4" is a bypass position of 57 |
| Utils.NonNumericTextRaises | custom_components/ducobox-connectivity-board/model/utils.py:48-78 | a word, and a list, make the pressure and bypass normalisers raise |
| Devices.ValueFn | custom_components/ducobox-connectivity-board/model/devices.py:49-709 | a catalog entry's value is None exactly when its path leads to None; pass-through entries give the walked value |
| Devices.NodeSensorsFor | custom_components/ducobox-connectivity-board/sensor.py:81 | `NODE_SENSORS.get(t, [])` raises only for an unhashable type; it is non-empty exactly for a catalogued type name |
| Devices.SensorKeysDistinct | custom_components/ducobox-connectivity-board/model/devices.py:49-180 | twelve box sensors with distinct keys |
| Devices.SensorsWellFormed | custom_components/ducobox-connectivity-board/model/devices.py:49-180 | every box sensor reads `info/…/<key>/Val`, has no '-' in its key, and uses the temperature, pressure and bypass normalisers on exactly the keys the catalog says |
| Devices.NodeSensorsWellFormed | custom_components/ducobox-connectivity-board/model/devices.py:183-709 | the catalog covers exactly the ten node types; each list is non-empty with distinct keys, sensor_key equal to key, and paths under Ventilation or Sensor |
| Devices.UcrhModeLabelledIcrh | custom_components/ducobox-connectivity-board/model/devices.py:659-665 | the UCRH list's Mode sensor carries node type ICRH |
| Devices.BoxSensorsKeysDistinct | custom_components/ducobox-connectivity-board/model/devices.py:184-255 | the BOX list has distinct keys |
| Devices.UcrhSensorsKeysDistinct | custom_components/ducobox-connectivity-board/model/devices.py:635-707 | the UCRH list has distinct keys |
| Coordinator.NodesOf | custom_components/ducobox-connectivity-board/model/coordinator.py:71-74 | a missing nodes response gives an empty node list, otherwise its nodes |
| Coordinator.NodeList | custom_components/ducobox-connectivity-board/model/coordinator.py:72 | the snapshot's node list holds each node dict in order |
| Coordinator.NodeType | custom_components/ducobox-connectivity-board/model/coordinator.py:83 | the node type is `General/Type/Val` when truthy and "Unknown" otherwise, so it is always truthy |
| Coordinator.NameMap | custom_components/ducobox-connectivity-board/model/coordinator.py:80-86 | `node_id_to_name` has at most one entry per node (an id seen again overwrites its entry; `MappingKeys` and `MappingLastWins` say which) |
| Coordinator.TypeMap | custom_components/ducobox-connectivity-board/model/coordinator.py:80-87 | `node_id_to_type` has at most one entry per node (an id seen again overwrites its entry; `MappingKeys` and `MappingLastWins` say which) |
| Coordinator.MappingKeys | custom_components/ducobox-connectivity-board/model/coordinator.py:80-87 | both mappings have exactly the node ids as keys |
| Coordinator.MappingLastWins | custom_components/ducobox-connectivity-board/model/coordinator.py:81-87 | the last node with a given id decides that id's type and its name "id:type" |
| Coordinator.FetchOnceData | custom_components/ducobox-connectivity-board/model/coordinator.py:48-54 | the static data holds exactly `action_nodes`, the `/action/nodes` reply |
| Coordinator.PolledData | custom_components/ducobox-connectivity-board/model/coordinator.py:59-87 | a poll fills exactly info, nodes, config_nodes and mappings |
| Coordinator.PolledDataGet | custom_components/ducobox-connectivity-board/model/coordinator.py:59-87 | what each polled key holds |
| Coordinator.FetchSpec | custom_components/ducobox-connectivity-board/model/coordinator.py:56-93 | `_fetch_data` succeeds exactly when the client exists, the three calls succeed, every node id is hashable and setup has run; the snapshot's keys are the polled ones plus the static ones |
| Coordinator.SnapshotContents | custom_components/ducobox-connectivity-board/model/coordinator.py:90 | in the snapshot, static keys win over polled ones and every other key keeps its polled value |
| Coordinator.ActionNodesInEverySnapshot | custom_components/ducobox-connectivity-board/model/coordinator.py:44-54 | every snapshot carries the action nodes fetched once at setup, beside the polled info and config nodes |
| Coordinator.DucoboxCoordinator.constructor | custom_components/ducobox-connectivity-board/model/coordinator.py:25-34 | a new coordinator has no static data |
| Coordinator.DucoboxCoordinator.AsyncSetup | custom_components/ducobox-connectivity-board/model/coordinator.py:44-51 | setup raises exactly when there is no client or `raw_get('/action/nodes')` raises, and then leaves the static data as it was; otherwise it stores `{'action_nodes': nodes}`; the snapshot and the success flag are never touched |
| Coordinator.DucoboxCoordinator.FetchData | custom_components/ducobox-connectivity-board/model/coordinator.py:56-93 | the method returns exactly `FetchSpec` |
| Coordinator.DucoboxCoordinator.BuildMappings | custom_components/ducobox-connectivity-board/model/coordinator.py:80-87 | the mapping loop builds `NameMap` and `TypeMap`, and fails exactly when some node id is unhashable |
| Coordinator.DucoboxCoordinator.AsyncUpdateData | custom_components/ducobox-connectivity-board/model/coordinator.py:36-42 | an update fails exactly when the fetch raises, and otherwise delivers the snapshot |
| Coordinator.SetValueRequest | custom_components/ducobox-connectivity-board/model/coordinator.py:98-107 | the patch goes to `/config/nodes/<node_id>`, and an integer node id reads back from that path (the body is read back by `SetValueRoundTrip`) |
| Coordinator.SetValueRoundTrip | custom_components/ducobox-connectivity-board/model/coordinator.py:95-107 | the PATCH goes to `/config/nodes/<id>` and its body parses back to the key and the value rounded half to even |
| Coordinator.SetValueExampleNearest | custom_components/ducobox-connectivity-board/model/coordinator.py:98-100 | 21.7 is sent as 22 |
| Coordinator.SetValueExampleTie | custom_components/ducobox-connectivity-board/model/coordinator.py:98-100 | 2.5 is sent as 2 |
| Coordinator.Available | custom_components/ducobox-connectivity-board/model/coordinator.py:144-146 | an entity is available exactly when the last update succeeded |
| Coordinator.GlobalNativeValue | custom_components/ducobox-connectivity-board/model/coordinator.py:149-155 | a box sensor shows None exactly when its path leads to None or its normaliser raises |
| Coordinator.ScanNodes | custom_components/ducobox-connectivity-board/model/coordinator.py:187-195 | the first node with the entity's id decides the value; no match gives None; only a non-dict item raises |
| Coordinator.GuardedNodeValue | custom_components/ducobox-connectivity-board/model/coordinator.py:190-194 | a `value_fn` that raises gives None, one that returns gives its value, and an absent field gives None |
| Coordinator.NodeNativeValue | custom_components/ducobox-connectivity-board/model/coordinator.py:185-187 | a snapshot whose nodes are a list gives exactly the `ScanNodes` result over that list; a snapshot without nodes gives None; a snapshot that is not a dict, or nodes that cannot be iterated, raise |
| LegacyCoordinator.LegacyData | custom_components/ducobox-connectivity-board/model/coordinators.py:43-72 | the legacy poll fills the same four keys |
| LegacyCoordinator.LegacyFetchSpec | custom_components/ducobox-connectivity-board/model/coordinators.py:40-77 | the legacy fetch succeeds under the same conditions, without static data, and has exactly the polled keys |
| LegacyCoordinator.LegacyDataGet | custom_components/ducobox-connectivity-board/model/coordinators.py:43-72 | what each key of the legacy snapshot holds |
| LegacyCoordinator.LegacyDucoboxCoordinator.constructor | custom_components/ducobox-connectivity-board/model/coordinators.py:22-30 | a new legacy coordinator has no data yet |
| LegacyCoordinator.LegacyDucoboxCoordinator.BuildNameMap | custom_components/ducobox-connectivity-board/model/coordinators.py:64-71 | the loop builds `NameMap`, failing exactly on an unhashable node id |
| LegacyCoordinator.LegacyDucoboxCoordinator.FetchData | custom_components/ducobox-connectivity-board/model/coordinators.py:40-77 | the method returns exactly `LegacyFetchSpec` |
| LegacyCoordinator.LegacyDucoboxCoordinator.AsyncUpdateData | custom_components/ducobox-connectivity-board/model/coordinators.py:32-38 | an update fails exactly when the fetch raises |
| LegacyCoordinator.LegacySharesPolledFields | custom_components/ducobox-connectivity-board/model/coordinators.py:48-62 | the legacy and current coordinators agree on info, nodes and config_nodes |
| LegacyCoordinator.LegacyMappingsAreNamesOnly | custom_components/ducobox-connectivity-board/model/coordinators.py:64-71 | the legacy mappings have only node_id_to_name (the same as the current one), and there are no action nodes |
| Entities.MacAddress | custom_components/ducobox-connectivity-board/sensor.py:25-27 | the MAC is the walked value when truthy, and "unknown_mac" otherwise |
| Entities.DeviceId | custom_components/ducobox-connectivity-board/sensor.py:33 | the device id has no ':' and no upper-case letter |
| Entities.DeviceIdChar | custom_components/ducobox-connectivity-board/sensor.py:33 | on one character the device id drops a ':' and lowers anything else |
| Entities.DeviceIdAppend | custom_components/ducobox-connectivity-board/sensor.py:33 | the device id of a concatenation is the concatenation of the device ids, so with `DeviceIdChar` it is determined character by character |
| Entities.DeviceIdIdempotent | custom_components/ducobox-connectivity-board/sensor.py:33 | normalising a device id again changes nothing |
| Entities.DeviceIdOfUnknownMac | custom_components/ducobox-connectivity-board/select.py:25-28 | the fallback MAC normalises to itself |
| Entities.BoxModel | custom_components/ducobox-connectivity-board/sensor.py:36-38 | the box model has no underscore and no whitespace at either end |
| Entities.BoxModelShape | custom_components/ducobox-connectivity-board/sensor.py:36-38 | the box model has no '_' and no leading or trailing whitespace |
| Entities.BoxModelDefaults | custom_components/ducobox-connectivity-board/sensor.py:36-38 | with neither a box name nor a subtype the model is "Unknown Model" |
| Entities.BoxModelOfNames | custom_components/ducobox-connectivity-board/sensor.py:36-38 | a box name and subtype with clean ends give "<name> <subtype>" with underscores as spaces, and the name alone when the subtype is empty |
| Entities.CollectRaise | custom_components/ducobox-connectivity-board/sensor.py:64-94 | the node loop raises exactly when some node's contribution raises |
| Entities.CollectOrder | custom_components/ducobox-connectivity-board/sensor.py:64-94 | the entities of the first i nodes are a prefix of all entities |
| Entities.GlobalIdsInjective | custom_components/ducobox-connectivity-board/sensor.py:52 | equal box unique ids have equal sensor keys |
| Entities.NodeIdsInjective | custom_components/ducobox-connectivity-board/sensor.py:71-83 | equal node unique ids have equal node ids and keys, and a node unique id never equals a box one |
| Entities.WalkMappings | custom_components/ducobox-connectivity-board/number.py:59-60 | the setups' lookups into the mappings read the coordinator's type and name maps |
| Entities.SnapshotMappings | custom_components/ducobox-connectivity-board/model/coordinator.py:80-90 | the snapshot's mappings are those built from its node list |
| Entities.MappedNode | custom_components/ducobox-connectivity-board/number.py:59-60 | in a snapshot, the type and name looked up for a node id are that node's type and "id:type" name |
| SensorPlatform.GlobalEntities | custom_components/ducobox-connectivity-board/sensor.py:51-60 | one entity per box sensor, in catalog order, with id `<device>-<key>` |
| SensorPlatform.DescribedEntities | custom_components/ducobox-connectivity-board/sensor.py:82-94 | one entity per node sensor description, with id `<device>-<node>-<key>` |
| SensorPlatform.NodeContribution | custom_components/ducobox-connectivity-board/sensor.py:64-94 | a node raises exactly when it is not a dict or its type is unhashable; it contributes entities exactly when its type is catalogued, and then the catalog's list |
| SensorPlatform.CollectGlobals | custom_components/ducobox-connectivity-board/sensor.py:51-60 | the loop over SENSORS builds `GlobalEntities` |
| SensorPlatform.CollectNode | custom_components/ducobox-connectivity-board/sensor.py:65-94 | the body of the node loop builds `NodeContribution` |
| SensorPlatform.CollectNodes | custom_components/ducobox-connectivity-board/sensor.py:63-94 | the node loop builds `NodeEntities` |
| SensorPlatform.SensorSetup | custom_components/ducobox-connectivity-board/sensor.py:16-96 | a falsy MAC returns before adding anything; entities are added only for a string MAC, and then at least the global sensors |
| SensorPlatform.SetupSensors | custom_components/ducobox-connectivity-board/sensor.py:16-96 | the whole setup returns exactly `SensorSetup` |
| SensorPlatform.NoMacNoSensors | custom_components/ducobox-connectivity-board/sensor.py:25-31 | without a MAC the setup returns before adding anything |
| SensorPlatform.MissingNodesRaise | custom_components/ducobox-connectivity-board/sensor.py:63-64 | with a MAC but no nodes the setup raises |
| SensorPlatform.GlobalsFirst | custom_components/ducobox-connectivity-board/sensor.py:48-60 | the twelve box sensors come first, in catalog order |
| SensorPlatform.GlobalIdsDistinct | custom_components/ducobox-connectivity-board/sensor.py:51-52 | the box sensors' unique ids are distinct |
| SensorPlatform.NodeOrder | custom_components/ducobox-connectivity-board/sensor.py:63-94 | nodes contribute in order, and the setup raises exactly when some node raises |
| SensorPlatform.NodeIdsDistinctWithinNode | custom_components/ducobox-connectivity-board/sensor.py:81-83 | one node's sensor ids are distinct |
| SensorPlatform.NodeIdsDistinctAcrossNodes | custom_components/ducobox-connectivity-board/sensor.py:71-83 | sensors of nodes with different integer ids have different unique ids, and none equals a box sensor id |
| NumberPlatform.ToInt | custom_components/ducobox-connectivity-board/number.py:83-86 | `int()` raises exactly on None, lists, dicts and non-numeric strings, and truncates floats toward zero |
| NumberPlatform.ToIntOfInteger | custom_components/ducobox-connectivity-board/number.py:83-86 | an integer given as int, float or decimal string converts to itself |
| NumberPlatform.FieldEntity | custom_components/ducobox-connectivity-board/number.py:74-87 | a field becomes an entity exactly when Val, Min, Max and Inc all convert; its id is `<node device>-<key>` and its numbers are those conversions |
| NumberPlatform.NumberFields | custom_components/ducobox-connectivity-board/number.py:73-74 | the selected fields are exactly the node's dict fields with Val, Min, Max and Inc |
| NumberPlatform.NumberFieldsAppend | custom_components/ducobox-connectivity-board/number.py:73-74 | selection works piece by piece, so the selected fields keep the node's order and multiplicity |
| NumberPlatform.NumberFieldsSingle | custom_components/ducobox-connectivity-board/number.py:73-74 | one field is kept exactly when it qualifies |
| NumberPlatform.FieldEntitiesMeaning | custom_components/ducobox-connectivity-board/number.py:73-88 | one entity per selected field, in order, each its `FieldEntity`; the loop raises exactly when a selected field fails to convert |
| NumberPlatform.FieldEntities | custom_components/ducobox-connectivity-board/number.py:72-88 | one entity per qualifying field of the node, each carrying the node's own id |
| NumberPlatform.NumberNodeContribution | custom_components/ducobox-connectivity-board/number.py:57-88 | a node without 'Node' raises; otherwise its fields give its entities |
| NumberPlatform.CollectFields | custom_components/ducobox-connectivity-board/number.py:73-88 | the field loop builds `FieldEntities` |
| NumberPlatform.CollectNumberNode | custom_components/ducobox-connectivity-board/number.py:57-88 | the body of the node loop builds `NumberNodeContribution` |
| NumberPlatform.CollectNumberNodes | custom_components/ducobox-connectivity-board/number.py:56-88 | the node loop builds `NumberNodeEntities` |
| NumberPlatform.NumberSetup | custom_components/ducobox-connectivity-board/number.py:21-90 | a falsy MAC returns before adding anything; entities are added only for a string MAC |
| NumberPlatform.SetupNumbers | custom_components/ducobox-connectivity-board/number.py:21-90 | the whole setup returns exactly `NumberSetup` |
| NumberPlatform.DucoboxNumberEntity.constructor | custom_components/ducobox-connectivity-board/number.py:96-109 | the entity starts from the field's value and bounds, named "<node name> <key>" |
| NumberPlatform.DucoboxNumberEntity.AsyncSetNativeValue | custom_components/ducobox-connectivity-board/number.py:121-126 | the value is overwritten before the remote call and kept when that call raises; the request is the coordinator's set-value PATCH |
| NumberPlatform.NoMacNoNumbers | custom_components/ducobox-connectivity-board/number.py:30-36 | without a MAC the setup returns before adding anything |
| NumberPlatform.MissingConfigNodesRaise | custom_components/ducobox-connectivity-board/number.py:56-57 | with a MAC but no config nodes the setup raises |
| NumberPlatform.UnhashableNodeIdRaises | custom_components/ducobox-connectivity-board/number.py:58-59 | an unhashable node id makes the mapping lookup raise |
| NumberPlatform.HashableNodeContribution | custom_components/ducobox-connectivity-board/number.py:58-61 | with a hashable id the node's entities are its field entities, with the mapped type and name |
| NumberPlatform.NumberIdsDistinctWithinNode | custom_components/ducobox-connectivity-board/number.py:73-75 | distinct string field keys give distinct unique ids |
| SelectPlatform.VentilationActions | custom_components/ducobox-connectivity-board/select.py:64-65 | the selected actions are exactly those named SetVentilationState |
| SelectPlatform.VentilationActionsAppend | custom_components/ducobox-connectivity-board/select.py:64-65 | selection works piece by piece, so the selected actions keep the node's order and multiplicity |
| SelectPlatform.VentilationActionsSingle | custom_components/ducobox-connectivity-board/select.py:64-65 | one action is kept exactly when it is SetVentilationState |
| SelectPlatform.ActionEntitiesRaise | custom_components/ducobox-connectivity-board/select.py:64-75 | the action loop raises exactly when some action lacks 'Action', or a ventilation action lacks 'Enum' |
| SelectPlatform.ActionEntitiesContents | custom_components/ducobox-connectivity-board/select.py:64-75 | one entity per ventilation action, in order, with id `<node device>-SetVentilationState` and that action's Enum as options |
| SelectPlatform.ActionEntities | custom_components/ducobox-connectivity-board/select.py:66-75 | at most one select per action of the node |
| SelectPlatform.SelectNodeContribution | custom_components/ducobox-connectivity-board/select.py:46-75 | a node without 'Node' raises |
| SelectPlatform.HashableSelectNodeContribution | custom_components/ducobox-connectivity-board/select.py:46-75 | with a hashable id the node's entities are its action entities, with the mapped type and name; actions that cannot be iterated raise |
| SelectPlatform.CollectActions | custom_components/ducobox-connectivity-board/select.py:64-75 | the action loop builds `ActionEntities` |
| SelectPlatform.CollectSelectNode | custom_components/ducobox-connectivity-board/select.py:46-75 | the body of the node loop builds `SelectNodeContribution` |
| SelectPlatform.CollectSelectNodes | custom_components/ducobox-connectivity-board/select.py:45-75 | the node loop builds `SelectNodeEntities` |
| SelectPlatform.SelectSetup | custom_components/ducobox-connectivity-board/select.py:16-77 | select setup never returns early: without a MAC it still adds entities under the `unknown_mac` device, or raises |
| SelectPlatform.SetupSelects | custom_components/ducobox-connectivity-board/select.py:16-77 | the whole setup returns exactly `SelectSetup` |
| SelectPlatform.DucoboxVentilationStateSelectEntity.constructor | custom_components/ducobox-connectivity-board/select.py:82-91 | the entity starts with no current option, named "<node name> Ventilation State" |
| SelectPlatform.DucoboxVentilationStateSelectEntity.AsyncSelectOption | custom_components/ducobox-connectivity-board/select.py:108-112 | any option, listed or not, becomes current before the remote call and stays when that call raises |
| SelectPlatform.NoMacUsesUnknownDevice | custom_components/ducobox-connectivity-board/select.py:25-28 | without a MAC the setup goes on under the device id "unknown_mac" |
| SelectPlatform.MissingActionNodesRaise | custom_components/ducobox-connectivity-board/select.py:45-46 | with no action nodes the setup raises |
| SelectPlatform.NodeWithoutActions | custom_components/ducobox-connectivity-board/select.py:64 | a node without 'Actions' contributes nothing |
| SelectPlatform.RepeatedActionRepeatsId | custom_components/ducobox-connectivity-board/select.py:64-75 | two ventilation actions on one node give two entities with the same unique id |
| SelectPlatform.SelectIdsDistinctAcrossNodes | custom_components/ducobox-connectivity-board/select.py:54-71 | nodes with different integer ids give different select ids |
| ConfigFlow.ProbeUrl | custom_components/ducobox-connectivity-board/config_flow.py:38 | the probe URL is the base URL without its trailing slashes, then "/info" |
| ConfigFlow.ProbeUrlIgnoresTrailingSlash | custom_components/ducobox-connectivity-board/config_flow.py:38 | a trailing slash does not change the probe URL |
| ConfigFlow.StepUser | custom_components/ducobox-connectivity-board/config_flow.py:25-46 | no input shows the form; an entry is created, with the input unchanged, exactly when the scheme is http or https and the probe succeeds; otherwise the form shows `cannot_connect`; the probe happens only after the scheme check |
| ConfigFlow.IsDucoName | custom_components/ducobox-connectivity-board/config_flow.py:52-54 | an accepted name has at least five characters and '_' or a space fifth, the separator after 'duco' (`DucoNameIgnoresCase` covers the case folding) |
| ConfigFlow.DucoNameIgnoresCase | custom_components/ducobox-connectivity-board/config_flow.py:54 | the name filter does not depend on case |
| ConfigFlow.DiscoveredUniqueId | custom_components/ducobox-connectivity-board/config_flow.py:60 | a unique id exists exactly when the name has a space; it has no space and no bracket at either end |
| ConfigFlow.DiscoveredUniqueIdValue | custom_components/ducobox-connectivity-board/config_flow.py:60 | the unique id is the text after the first space up to the next one, with brackets stripped from both ends |
| ConfigFlow.UniqueIdOfAnnouncement | custom_components/ducobox-connectivity-board/config_flow.py:60 | a name "<model> [<id>]" yields the id |
| ConfigFlow.SpacedDucoNameHasUniqueId | custom_components/ducobox-connectivity-board/config_flow.py:52-60 | a name accepted through "duco " always has a unique id |
| ConfigFlow.UnderscoreNameWithoutSpaceRaises | custom_components/ducobox-connectivity-board/config_flow.py:52-60 | a name accepted through "duco_" with no space passes the filter and then raises |
| ConfigFlow.ZeroconfDiscovery | custom_components/ducobox-connectivity-board/config_flow.py:52-60 | names outside the filter are refused; an accepted name raises exactly without addresses or without a space; otherwise the host is the first address |
| ConfigFlow.ConfirmOutcome | custom_components/ducobox-connectivity-board/config_flow.py:77-98 | confirming without a stored discovery raises; a confirmation creates an entry with exactly base_url "https://host" and the unique id |
| ConfigFlow.DucoboxConfigFlow.StepZeroconf | custom_components/ducobox-connectivity-board/config_flow.py:48-75 | a refused name aborts with not_duco_air_device; an already configured id aborts after the flow took the id; otherwise the discovery is stored and the confirmation form shown |
| ConfigFlow.DucoboxConfigFlow.StepConfirm | custom_components/ducobox-connectivity-board/config_flow.py:77-98 | the step returns exactly `ConfirmOutcome` of the stored discovery |
| ConfigFlow.DiscoveredEntry | custom_components/ducobox-connectivity-board/config_flow.py:83-89 | the entry made after discovery points at https on the first address and carries the id from the name |

## Left out

- `__init__.py` entry plumbing (client construction, platform forwarding, unload) is not part of this model. It stores the client itself in `hass.data[DOMAIN]`, while the platforms read `hass.data[DOMAIN][entry_id]['coordinator']`; the model starts from a coordinator snapshot and does not capture that mismatch.
- The options flow and the voluptuous schema of `config_flow.py` are UI only and not modelled.
- `DeviceInfo` objects, display names of sensors, units, device classes and `async_write_ha_state` are not modelled; entities keep their unique id, node id, name and description.
- The Home Assistant scheduler, `async_add_executor_job` and the upkeep of `last_update_success` are host behaviour; `last_update_success` is a field the model reads and never updates.
- The `ducopy` calls (`get_info`, `get_nodes`, `raw_get`, `raw_patch`, `change_action_node`) and the HTTP probe are parameters: a reply or a raise.
- `requests.utils.urlparse` is not modelled: the scheme is a parameter of `ConfigFlow.StepUser`.
- Utils.ProcessTemperature: states the result over exact reals, not IEEE doubles; the same holds for `ProcessPressure`, `RoundHalfEven` and `SetValueRequest`, so float rounding error is not modelled.
- Utils.FloatOf: reads an optional '-', digits and an optional fraction; `float()` on text with surrounding whitespace, '+', exponents, underscores, "inf" or "nan" is not modelled and raises in the model.
- NumberPlatform.ToInt: does not model `int()` on strings with surrounding whitespace, '+', or underscores, nor on infinities and NaN.
- Json.Get: keys compare structurally, so Python's `1 == 1.0 == True` key collisions are not modelled.
- Coordinator.ScanNodes: node ids compare structurally, so a node whose 'Node' is 1.0 or True does not match an entity for node 1 as Python's `node.get('Node') == self._node_id` would; the same holds where NumberPlatform and SelectPlatform look ids up in the mappings (`Json.Get` above).
- Json.Show: renders None, booleans, integers and strings as Python's `str` does; floats, lists and dicts get placeholders.
- Coordinator.SetValueRoundTrip: assumes the key has no '"'; `json.dumps` escaping is not modelled.
- Text.Lower: lowers ASCII letters only, and `Text.Whitespace` is ASCII whitespace; Unicode case and whitespace are not modelled.
- The node address (`node_addr`) is read and never used; it is not modelled.
- Coordinator.FetchSpec: exceptions of the client calls are a single `Raised`; their kinds are not distinguished.
- ConfigFlow.StepUser: a probe failure stands for any `RequestException`; other exceptions escaping the step are not modelled.
