/** The sensor catalog of model/devices.py: the global sensors read from the
    snapshot root and, per node type, the sensors read from one node. An
    entry's value function is always safe_get along the entry's path followed
    by the entry's normaliser, so an entry is stored as that pair. */
module Devices {
  import opened Text
  import opened Json
  import opened Utils

  /** A DucoboxSensorEntityDescription: key, snapshot-rooted path, normaliser. */
  datatype SensorDescription = SensorDescription(key: string, path: seq<string>, normaliser: Normaliser)

  /** A DucoboxNodeSensorEntityDescription: key, node-rooted path, normaliser,
      and the sensor_key and node_type labels it carries. */
  datatype NodeSensorDescription = NodeSensorDescription(
    key: string, path: seq<string>, normaliser: Normaliser, sensorKey: string, nodeType: string)

  /** value_fn of an entry, global or node: safe_get along the entry's path
      from `root` (the snapshot or one node), then the entry's normaliser. */
  function ValueFn(path: seq<string>, n: Normaliser, root: Json): (r: Result<Json>)
    ensures r == Ok(JNull) <==> Walk(root, Path(path)) == JNull
    ensures IsPassThrough(n) ==> r == Ok(Walk(root, Path(path)))
  {
    Normalise(n, Walk(root, Path(path)))
  }

  // ---------------------------------------------------------------------------
  // SENSORS
  // ---------------------------------------------------------------------------

  const Sensors: seq<SensorDescription> := [
    SensorDescription("TempOda", ["info", "Ventilation", "Sensor", "TempOda", "Val"], Temperature),
    SensorDescription("TempSup", ["info", "Ventilation", "Sensor", "TempSup", "Val"], Temperature),
    SensorDescription("TempEta", ["info", "Ventilation", "Sensor", "TempEta", "Val"], Temperature),
    SensorDescription("TempEha", ["info", "Ventilation", "Sensor", "TempEha", "Val"], Temperature),
    SensorDescription("SpeedSup", ["info", "Ventilation", "Fan", "SpeedSup", "Val"], Speed),
    SensorDescription("SpeedEha", ["info", "Ventilation", "Fan", "SpeedEha", "Val"], Speed),
    SensorDescription("PressSup", ["info", "Ventilation", "Fan", "PressSup", "Val"], Pressure),
    SensorDescription("PressEha", ["info", "Ventilation", "Fan", "PressEha", "Val"], Pressure),
    SensorDescription("RssiWifi", ["info", "General", "Lan", "RssiWifi", "Val"], Rssi),
    SensorDescription("UpTime", ["info", "General", "Board", "UpTime", "Val"], Uptime),
    SensorDescription("TimeFilterRemain", ["info", "HeatRecovery", "General", "TimeFilterRemain", "Val"], TimeFilterRemain),
    SensorDescription("BypassPos", ["info", "HeatRecovery", "Bypass", "Pos", "Val"], BypassPosition)
  ]

  // ---------------------------------------------------------------------------
  // NODE_SENSORS
  // ---------------------------------------------------------------------------

  const BoxSensors: seq<NodeSensorDescription> := [
    NodeSensorDescription("Mode", ["Ventilation", "Mode"], Raw, "Mode", "BOX"),
    NodeSensorDescription("State", ["Ventilation", "State"], Raw, "State", "BOX"),
    NodeSensorDescription("FlowLvlTgt", ["Ventilation", "FlowLvlTgt"], Raw, "FlowLvlTgt", "BOX"),
    NodeSensorDescription("TimeStateRemain", ["Ventilation", "TimeStateRemain"], Raw, "TimeStateRemain", "BOX"),
    NodeSensorDescription("TimeStateEnd", ["Ventilation", "TimeStateEnd"], Raw, "TimeStateEnd", "BOX"),
    NodeSensorDescription("Temp", ["Sensor", "data", "Temp"], NodeTemperature, "Temp", "BOX"),
    NodeSensorDescription("Rh", ["Sensor", "data", "Rh"], NodeHumidity, "Rh", "BOX"),
    NodeSensorDescription("IaqRh", ["Sensor", "data", "IaqRh"], NodeIaq, "IaqRh", "BOX")
  ]

  const Ucco2Sensors: seq<NodeSensorDescription> := [
    NodeSensorDescription("Temp", ["Sensor", "data", "Temp"], NodeTemperature, "Temp", "UCCO2"),
    NodeSensorDescription("Co2", ["Sensor", "data", "Co2"], NodeCo2, "Co2", "UCCO2"),
    NodeSensorDescription("IaqCo2", ["Sensor", "data", "IaqCo2"], NodeIaq, "IaqCo2", "UCCO2")
  ]

  const BsrhSensors: seq<NodeSensorDescription> := [
    NodeSensorDescription("Temp", ["Sensor", "data", "Temp"], NodeTemperature, "Temp", "BSRH"),
    NodeSensorDescription("Rh", ["Sensor", "data", "Rh"], NodeHumidity, "Rh", "BSRH"),
    NodeSensorDescription("IaqRh", ["Sensor", "data", "IaqRh"], NodeIaq, "IaqRh", "BSRH")
  ]

  const VlvrhSensors: seq<NodeSensorDescription> := [
    NodeSensorDescription("State", ["Ventilation", "State"], Raw, "State", "VLVRH"),
    NodeSensorDescription("TimeStateRemain", ["Ventilation", "TimeStateRemain"], Raw, "TimeStateRemain", "VLVRH"),
    NodeSensorDescription("TimeStateEnd", ["Ventilation", "TimeStateEnd"], Raw, "TimeStateEnd", "VLVRH"),
    NodeSensorDescription("Mode", ["Ventilation", "Mode"], Raw, "Mode", "VLVRH"),
    NodeSensorDescription("FlowLvlTgt", ["Ventilation", "FlowLvlTgt"], Raw, "FlowLvlTgt", "VLVRH"),
    NodeSensorDescription("IaqRh", ["Sensor", "data", "IaqRh"], NodeIaq, "IaqRh", "VLVRH"),
    NodeSensorDescription("Rh", ["Sensor", "data", "Rh"], NodeIaq, "Rh", "VLVRH"),
    NodeSensorDescription("Temp", ["Sensor", "data", "Temp"], NodeTemperature, "Temp", "VLVRH")
  ]

  const Vlvco2Sensors: seq<NodeSensorDescription> := [
    NodeSensorDescription("State", ["Ventilation", "State"], Raw, "State", "VLVCO2"),
    NodeSensorDescription("TimeStateRemain", ["Ventilation", "TimeStateRemain"], Raw, "TimeStateRemain", "VLVCO2"),
    NodeSensorDescription("TimeStateEnd", ["Ventilation", "TimeStateEnd"], Raw, "TimeStateEnd", "VLVCO2"),
    NodeSensorDescription("Mode", ["Ventilation", "Mode"], Raw, "Mode", "VLVCO2"),
    NodeSensorDescription("FlowLvlTgt", ["Ventilation", "FlowLvlTgt"], Raw, "FlowLvlTgt", "VLVCO2"),
    NodeSensorDescription("Co2", ["Sensor", "data", "Co2"], NodeCo2, "Co2", "VLVCO2"),
    NodeSensorDescription("IaqCo2", ["Sensor", "data", "IaqCo2"], NodeIaq, "IaqCo2", "VLVCO2"),
    NodeSensorDescription("Temp", ["Sensor", "data", "Temp"], NodeTemperature, "Temp", "VLVCO2")
  ]

  const Vlvco2rhSensors: seq<NodeSensorDescription> := [
    NodeSensorDescription("State", ["Ventilation", "State"], Raw, "State", "VLVCO2RH"),
    NodeSensorDescription("TimeStateRemain", ["Ventilation", "TimeStateRemain"], Raw, "TimeStateRemain", "VLVCO2RH"),
    NodeSensorDescription("TimeStateEnd", ["Ventilation", "TimeStateEnd"], Raw, "TimeStateEnd", "VLVCO2RH"),
    NodeSensorDescription("Mode", ["Ventilation", "Mode"], Raw, "Mode", "VLVCO2RH"),
    NodeSensorDescription("FlowLvlTgt", ["Ventilation", "FlowLvlTgt"], Raw, "FlowLvlTgt", "VLVCO2RH"),
    NodeSensorDescription("Co2", ["Sensor", "data", "Co2"], NodeCo2, "Co2", "VLVCO2RH"),
    NodeSensorDescription("IaqCo2", ["Sensor", "data", "IaqCo2"], NodeIaq, "IaqCo2", "VLVCO2RH"),
    NodeSensorDescription("Rh", ["Sensor", "data", "Rh"], NodeIaq, "Rh", "VLVCO2RH"),
    NodeSensorDescription("IaqRh", ["Sensor", "data", "IaqRh"], NodeIaq, "IaqRh", "VLVCO2RH"),
    NodeSensorDescription("Temp", ["Sensor", "data", "Temp"], NodeTemperature, "Temp", "VLVCO2RH")
  ]

  const VlvSensors: seq<NodeSensorDescription> := [
    NodeSensorDescription("State", ["Ventilation", "State"], Raw, "State", "VLV"),
    NodeSensorDescription("Mode", ["Ventilation", "Mode"], Raw, "Mode", "VLV"),
    NodeSensorDescription("FlowLvlTgt", ["Ventilation", "FlowLvlTgt"], Raw, "FlowLvlTgt", "VLV")
  ]

  const SwitchSensors: seq<NodeSensorDescription> := [
    NodeSensorDescription("State", ["Ventilation", "State"], Raw, "State", "SWITCH"),
    NodeSensorDescription("Mode", ["Ventilation", "Mode"], Raw, "Mode", "SWITCH")
  ]

  const UcbatSensors: seq<NodeSensorDescription> := [
    NodeSensorDescription("State", ["Ventilation", "State"], Raw, "State", "UCBAT"),
    NodeSensorDescription("TimeStateRemain", ["Ventilation", "TimeStateRemain"], Raw, "TimeStateRemain", "UCBAT"),
    NodeSensorDescription("TimeStateEnd", ["Ventilation", "TimeStateEnd"], Raw, "TimeStateEnd", "UCBAT"),
    NodeSensorDescription("Mode", ["Ventilation", "Mode"], Raw, "Mode", "UCBAT")
  ]

  const UcrhSensors: seq<NodeSensorDescription> := [
    NodeSensorDescription("State", ["Ventilation", "State"], Raw, "State", "UCRH"),
    NodeSensorDescription("TimeStateRemain", ["Ventilation", "TimeStateRemain"], Raw, "TimeStateRemain", "UCRH"),
    NodeSensorDescription("TimeStateEnd", ["Ventilation", "TimeStateEnd"], Raw, "TimeStateEnd", "UCRH"),
    NodeSensorDescription("Mode", ["Ventilation", "Mode"], Raw, "Mode", "ICRH"),
    NodeSensorDescription("FlowLvlTgt", ["Ventilation", "FlowLvlTgt"], Raw, "FlowLvlTgt", "UCRH"),
    NodeSensorDescription("IaqRh", ["Sensor", "data", "IaqRh"], NodeIaq, "IaqRh", "UCRH"),
    NodeSensorDescription("Rh", ["Sensor", "data", "Rh"], NodeIaq, "Rh", "UCRH"),
    NodeSensorDescription("Temp", ["Sensor", "data", "Temp"], NodeTemperature, "Temp", "UCRH")
  ]

  /** NODE_SENSORS, keyed by the node type the box reports. */
  const NodeSensors: map<string, seq<NodeSensorDescription>> := map[
    "BOX" := BoxSensors,
    "UCCO2" := Ucco2Sensors,
    "BSRH" := BsrhSensors,
    "VLVRH" := VlvrhSensors,
    "VLVCO2" := Vlvco2Sensors,
    "VLVCO2RH" := Vlvco2rhSensors,
    "VLV" := VlvSensors,
    "SWITCH" := SwitchSensors,
    "UCBAT" := UcbatSensors,
    "UCRH" := UcrhSensors
  ]

  /** The node types NODE_SENSORS lists. */
  const NodeTypes: set<string> :=
    {"BOX", "UCCO2", "BSRH", "VLVRH", "VLVCO2", "VLVCO2RH", "VLV", "SWITCH", "UCBAT", "UCRH"}

  /** NODE_SENSORS.get(node_type, []): a listed type gives its entries, any
      other hashable value none, and a list or dict raises TypeError. */
  function NodeSensorsFor(nodeType: Json): (r: Result<seq<NodeSensorDescription>>)
    ensures r.Raised? <==> !Hashable(nodeType)
    ensures r.Ok? && r.value != [] <==> nodeType.JStr? && nodeType.s in NodeTypes
    ensures nodeType.JStr? && nodeType.s in NodeTypes ==> r == Ok(NodeSensors[nodeType.s])
  {
    if !Hashable(nodeType) then Raised
    else if nodeType.JStr? && nodeType.s in NodeSensors then Ok(NodeSensors[nodeType.s])
    else Ok([])
  }

  // ---------------------------------------------------------------------------
  // Properties of the catalog
  // ---------------------------------------------------------------------------

  predicate DistinctSensorKeys(ds: seq<SensorDescription>)
  {
    forall i, j :: 0 <= i < j < |ds| ==> ds[i].key != ds[j].key
  }

  predicate DistinctNodeSensorKeys(ds: seq<NodeSensorDescription>)
  {
    forall i, j :: 0 <= i < j < |ds| ==> ds[i].key != ds[j].key
  }

  /** What each global entry satisfies: a path info / <group> / <section> /
      <field> / Val, no '-' in the key, and a scaling or rounding normaliser
      exactly on the temperature, pressure and bypass-position sensors. */
  predicate WellFormedSensor(d: SensorDescription)
  {
    && |d.path| == 5 && d.path[0] == "info" && d.path[4] == "Val"
    && '-' !in d.key
    && (d.normaliser == Temperature <==> d.key in {"TempOda", "TempSup", "TempEta", "TempEha"})
    && (d.normaliser == Pressure <==> d.key in {"PressSup", "PressEha"})
    && (d.normaliser == BypassPosition <==> d.key == "BypassPos")
  }

  /** What each entry listed under node type t satisfies: sensor_key repeats
      the key, the node_type label is t (UCRH Mode is labelled ICRH), no '-'
      in the key, and the path is Ventilation / <key> read as it is or
      Sensor / data / <key> with a node normaliser. */
  predicate WellFormedNodeSensor(t: string, d: NodeSensorDescription)
  {
    && d.sensorKey == d.key
    && (d.nodeType == t || (t == "UCRH" && d.key == "Mode" && d.nodeType == "ICRH"))
    && '-' !in d.key
    && ((d.path == ["Ventilation", d.key] && d.normaliser == Raw) ||
        (d.path == ["Sensor", "data", d.key] && d.normaliser in {NodeTemperature, NodeHumidity, NodeCo2, NodeIaq}))
  }

  predicate WellFormedNodeSensors(t: string, ds: seq<NodeSensorDescription>)
  {
    && ds != []
    && DistinctNodeSensorKeys(ds)
    && forall i :: 0 <= i < |ds| ==> WellFormedNodeSensor(t, ds[i])
  }

  /** Twelve global sensors with pairwise distinct keys. */
  lemma SensorKeysDistinct()
    ensures |Sensors| == 12
    ensures DistinctSensorKeys(Sensors)
  {
  }

  /** Every global entry is well formed: path shape, key alphabet and the
      normaliser assignment, in both directions. */
  lemma SensorsWellFormed()
    ensures forall i :: 0 <= i < |Sensors| ==> WellFormedSensor(Sensors[i])
  {
  }

  // The per-type lemmas below are the steps of NodeSensorsWellFormed: each
  // checks one catalog on its own, which keeps the aggregate proof small.

  lemma BoxSensorsKeysDistinct()
    ensures DistinctNodeSensorKeys(BoxSensors)
  {
  }

  lemma BoxSensorsEntriesWellFormed()
    ensures forall i :: 0 <= i < |BoxSensors| ==> WellFormedNodeSensor("BOX", BoxSensors[i])
  {
  }

  lemma Ucco2SensorsKeysDistinct()
    ensures DistinctNodeSensorKeys(Ucco2Sensors)
  {
  }

  lemma Ucco2SensorsEntriesWellFormed()
    ensures forall i :: 0 <= i < |Ucco2Sensors| ==> WellFormedNodeSensor("UCCO2", Ucco2Sensors[i])
  {
  }

  lemma BsrhSensorsKeysDistinct()
    ensures DistinctNodeSensorKeys(BsrhSensors)
  {
  }

  lemma BsrhSensorsEntriesWellFormed()
    ensures forall i :: 0 <= i < |BsrhSensors| ==> WellFormedNodeSensor("BSRH", BsrhSensors[i])
  {
  }

  lemma VlvrhSensorsKeysDistinct()
    ensures DistinctNodeSensorKeys(VlvrhSensors)
  {
  }

  lemma VlvrhSensorsEntriesWellFormed()
    ensures forall i :: 0 <= i < |VlvrhSensors| ==> WellFormedNodeSensor("VLVRH", VlvrhSensors[i])
  {
  }

  lemma Vlvco2SensorsKeysDistinct()
    ensures DistinctNodeSensorKeys(Vlvco2Sensors)
  {
  }

  lemma Vlvco2SensorsEntriesWellFormed()
    ensures forall i :: 0 <= i < |Vlvco2Sensors| ==> WellFormedNodeSensor("VLVCO2", Vlvco2Sensors[i])
  {
  }

  lemma Vlvco2rhSensorsKeysDistinct()
    ensures DistinctNodeSensorKeys(Vlvco2rhSensors)
  {
  }

  lemma Vlvco2rhSensorsEntriesWellFormed()
    ensures forall i :: 0 <= i < |Vlvco2rhSensors| ==> WellFormedNodeSensor("VLVCO2RH", Vlvco2rhSensors[i])
  {
  }

  lemma VlvSensorsKeysDistinct()
    ensures DistinctNodeSensorKeys(VlvSensors)
  {
  }

  lemma VlvSensorsEntriesWellFormed()
    ensures forall i :: 0 <= i < |VlvSensors| ==> WellFormedNodeSensor("VLV", VlvSensors[i])
  {
  }

  lemma SwitchSensorsKeysDistinct()
    ensures DistinctNodeSensorKeys(SwitchSensors)
  {
  }

  lemma SwitchSensorsEntriesWellFormed()
    ensures forall i :: 0 <= i < |SwitchSensors| ==> WellFormedNodeSensor("SWITCH", SwitchSensors[i])
  {
  }

  lemma UcbatSensorsKeysDistinct()
    ensures DistinctNodeSensorKeys(UcbatSensors)
  {
  }

  lemma UcbatSensorsEntriesWellFormed()
    ensures forall i :: 0 <= i < |UcbatSensors| ==> WellFormedNodeSensor("UCBAT", UcbatSensors[i])
  {
  }

  lemma UcrhSensorsKeysDistinct()
    ensures DistinctNodeSensorKeys(UcrhSensors)
  {
  }

  lemma UcrhSensorsEntriesWellFormed()
    ensures forall i :: 0 <= i < |UcrhSensors| ==> WellFormedNodeSensor("UCRH", UcrhSensors[i])
  {
  }

  /** NODE_SENSORS lists exactly the ten node types; each list is non-empty,
      its keys are pairwise distinct and every entry is well formed. */
  lemma NodeSensorsWellFormed()
    ensures NodeSensors.Keys == NodeTypes
    ensures forall t :: t in NodeSensors ==> WellFormedNodeSensors(t, NodeSensors[t])
  {
    BoxSensorsKeysDistinct();
    BoxSensorsEntriesWellFormed();
    Ucco2SensorsKeysDistinct();
    Ucco2SensorsEntriesWellFormed();
    BsrhSensorsKeysDistinct();
    BsrhSensorsEntriesWellFormed();
    VlvrhSensorsKeysDistinct();
    VlvrhSensorsEntriesWellFormed();
    Vlvco2SensorsKeysDistinct();
    Vlvco2SensorsEntriesWellFormed();
    Vlvco2rhSensorsKeysDistinct();
    Vlvco2rhSensorsEntriesWellFormed();
    VlvSensorsKeysDistinct();
    VlvSensorsEntriesWellFormed();
    SwitchSensorsKeysDistinct();
    SwitchSensorsEntriesWellFormed();
    UcbatSensorsKeysDistinct();
    UcbatSensorsEntriesWellFormed();
    UcrhSensorsKeysDistinct();
    UcrhSensorsEntriesWellFormed();
  }

  /** The one entry whose label differs from its type. */
  lemma UcrhModeLabelledIcrh()
    ensures NodeSensors["UCRH"][3].key == "Mode" && NodeSensors["UCRH"][3].nodeType == "ICRH"
  {
  }
}
