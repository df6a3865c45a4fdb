/** async_setup_entry of sensor.py: one entity per global catalog entry, then
    for every node of the snapshot one entity per catalog entry of the node's
    type. */
module SensorPlatform {
  import opened Text
  import opened Json
  import opened Utils
  import opened Devices
  import opened Coordinator
  import opened Entities

  /** The global entities, in catalog order, with ids f"{device_id}-{key}". */
  function GlobalEntities(deviceId: string): (es: seq<SensorEntity>)
    ensures |es| == |Sensors|
    ensures forall i :: 0 <= i < |Sensors| ==> es[i] == GlobalSensor(Dashed(deviceId, Sensors[i].key), Sensors[i])
  {
    seq(|Sensors|, i requires 0 <= i < |Sensors| => GlobalSensor(Dashed(deviceId, Sensors[i].key), Sensors[i]))
  }

  /** f"{device_id}:{node_id}:{node_type}". */
  function SensorNodeName(deviceId: string, nodeId: Json, nodeType: Json): string
  {
    deviceId + ":" + Show(nodeId) + ":" + Show(nodeType)
  }

  /** One entity per description, with ids f"{node_device_id}-{key}". */
  function DescribedEntities(nodeDeviceId: string, nodeId: Json, nodeName: string, ds: seq<NodeSensorDescription>): (es: seq<SensorEntity>)
    ensures |es| == |ds|
    ensures forall j :: 0 <= j < |ds| ==> es[j] == NodeSensor(Dashed(nodeDeviceId, ds[j].key), nodeId, nodeName, ds[j])
  {
    seq(|ds|, j requires 0 <= j < |ds| => NodeSensor(Dashed(nodeDeviceId, ds[j].key), nodeId, nodeName, ds[j]))
  }

  /** What one node of the snapshot contributes: node.get raises on anything
      but a dict, and NODE_SENSORS.get raises on an unhashable type. A type
      the catalog does not list contributes nothing. */
  function NodeContribution(deviceId: string, node: Json): (r: Result<seq<SensorEntity>>)
    ensures r.Raised? <==> !node.JDict? || !Hashable(NodeType(node.entries))
    ensures node.JDict? && r.Ok? ==>
      var t := NodeType(node.entries);
      var id := NodeId(node.entries);
      && (r.value != [] <==> t.JStr? && t.s in NodeTypes)
      && (t.JStr? && t.s in NodeTypes ==>
            r.value == DescribedEntities(Dashed(deviceId, Show(id)), id, SensorNodeName(deviceId, id, t), NodeSensors[t.s]))
  {
    if !node.JDict? then Raised
    else
      var id := NodeId(node.entries);
      var t := NodeType(node.entries);
      match NodeSensorsFor(t)
      case Raised => Raised
      case Ok(ds) => Ok(DescribedEntities(Dashed(deviceId, Show(id)), id, SensorNodeName(deviceId, id, t), ds))
  }

  /** What each node of the list contributes. */
  function Contributions(deviceId: string, nodes: seq<Json>): (rs: seq<Result<seq<SensorEntity>>>)
    ensures |rs| == |nodes|
    ensures forall i :: 0 <= i < |nodes| ==> rs[i] == NodeContribution(deviceId, nodes[i])
  {
    seq(|nodes|, i requires 0 <= i < |nodes| => NodeContribution(deviceId, nodes[i]))
  }

  /** The node entities of the whole node list, in node order. */
  function NodeEntities(deviceId: string, nodes: seq<Json>): Result<seq<SensorEntity>>
  {
    Collect(Contributions(deviceId, nodes))
  }

  const NodesPath: seq<string> := ["nodes"]

  /** The outcome of async_setup_entry for the snapshot `data`. */
  function SensorSetup(data: Json): (r: Setup<SensorEntity>)
    ensures !Truthy(Walk(data, Path(MacPath))) ==> r == ReturnedEarly
    ensures r.Added? ==> Walk(data, Path(MacPath)).JStr? && |r.entities| >= |Sensors|
  {
    var mac := MacAddress(data);
    if mac == JStr(UnknownMac) then ReturnedEarly
    else if !mac.JStr? then SetupRaised
    else
      SetupWithDevice(DeviceId(mac.s), Walk(data, Path(NodesPath)))
  }

  /** The part of setup after the device id is known. */
  function SetupWithDevice(deviceId: string, nodesValue: Json): Setup<SensorEntity>
  {
    match Iterate(nodesValue)
    case Raised => SetupRaised
    case Ok(nodes) =>
      match NodeEntities(deviceId, nodes)
      case Raised => SetupRaised
      case Ok(es) => Added(GlobalEntities(deviceId) + es)
  }

  // ---------------------------------------------------------------------------
  // The setup loop
  // ---------------------------------------------------------------------------

  /** The loop over SENSORS. */
  method CollectGlobals(deviceId: string) returns (entities: seq<SensorEntity>)
    ensures entities == GlobalEntities(deviceId)
  {
    entities := [];
    for i := 0 to |Sensors|
      invariant entities == GlobalEntities(deviceId)[..i]
    {
      entities := entities + [GlobalSensor(Dashed(deviceId, Sensors[i].key), Sensors[i])];
    }
  }

  /** One pass of the loop over the nodes, with its inner loop over the
      node's catalog entries. */
  method CollectNode(deviceId: string, node: Json) returns (r: Result<seq<SensorEntity>>)
    ensures r == NodeContribution(deviceId, node)
  {
    if !node.JDict? {
      return Raised;
    }
    var nodeId := Get(node.entries, JStr("Node"));
    var gotType := SafeGet(node, Path(TypePath));
    var typeWalked := gotType.value;
    var nodeType := Or(typeWalked, JStr("Unknown"));
    assert nodeId == NodeId(node.entries) && nodeType == NodeType(node.entries);
    var nodeName := deviceId + ":" + Show(nodeId) + ":" + Show(nodeType);
    var nodeDeviceId := Dashed(deviceId, Show(nodeId));
    var found := NodeSensorsFor(nodeType);
    if found.Raised? {
      return Raised;
    }
    var ds := found.value;
    var entities: seq<SensorEntity> := [];
    for j := 0 to |ds|
      invariant entities == DescribedEntities(nodeDeviceId, nodeId, nodeName, ds)[..j]
    {
      entities := entities + [NodeSensor(Dashed(nodeDeviceId, ds[j].key), nodeId, nodeName, ds[j])];
    }
    assert entities == DescribedEntities(nodeDeviceId, nodeId, nodeName, ds);
    assert nodeName == SensorNodeName(deviceId, nodeId, nodeType);
    r := Ok(entities);
  }

  /** The loop over the nodes of the snapshot. */
  method CollectNodes(deviceId: string, nodes: seq<Json>) returns (r: Result<seq<SensorEntity>>)
    ensures r == NodeEntities(deviceId, nodes)
  {
    ghost var rs := Contributions(deviceId, nodes);
    var entities: seq<SensorEntity> := [];
    var i := 0;
    while i < |nodes|
      invariant 0 <= i <= |nodes|
      invariant Collect(rs[..i]) == Ok(entities)
    {
      CollectStep(rs, i);
      var contribution := CollectNode(deviceId, nodes[i]);
      if contribution.Raised? {
        CollectRaise(rs);
        return Raised;
      }
      entities := entities + contribution.value;
      i := i + 1;
    }
    assert rs[..i] == rs;
    r := Ok(entities);
  }

  /** async_setup_entry itself: the MAC gate, the loop over SENSORS, then the
      loop over the nodes. */
  method SetupSensors(data: Json) returns (r: Setup<SensorEntity>)
    ensures r == SensorSetup(data)
  {
    var gotMac := SafeGet(data, Path(MacPath));
    var walked := gotMac.value;
    var mac := Or(walked, JStr(UnknownMac));
    if mac == JStr(UnknownMac) {
      return ReturnedEarly;
    }
    if !mac.JStr? {
      return SetupRaised;
    }
    var deviceId := DeviceId(mac.s);
    assert SensorSetup(data) == SetupWithDevice(deviceId, Walk(data, Path(NodesPath)));
    var entities := CollectGlobals(deviceId);
    var gotNodes := SafeGet(data, Path(NodesPath));
    var nodesValue := gotNodes.value;
    var iterated := Iterate(nodesValue);
    if iterated.Raised? {
      return SetupRaised;
    }
    var fromNodes := CollectNodes(deviceId, iterated.value);
    if fromNodes.Raised? {
      return SetupRaised;
    }
    entities := entities + fromNodes.value;
    r := Added(entities);
  }

  // ---------------------------------------------------------------------------
  // Properties
  // ---------------------------------------------------------------------------

  /** Without a MAC address (absent or falsy) setup returns and adds nothing. */
  lemma NoMacNoSensors(data: Json)
    requires !Truthy(Walk(data, Path(MacPath)))
    ensures SensorSetup(data) == ReturnedEarly
  {
  }

  /** With a MAC but a snapshot whose nodes cannot be iterated (absent, so
      None), setup raises. */
  lemma MissingNodesRaise(data: Json)
    requires Walk(data, Path(MacPath)).JStr? && Walk(data, Path(MacPath)).s != "" && Walk(data, Path(MacPath)).s != UnknownMac
    requires Walk(data, Path(NodesPath)) == JNull
    ensures SensorSetup(data) == SetupRaised
  {
  }

  /** The entities added are the twelve global ones, in catalog order, then
      the node entities in node order. */
  lemma GlobalsFirst(data: Json)
    requires SensorSetup(data).Added?
    ensures var es := SensorSetup(data).entities;
      var deviceId := DeviceId(MacAddress(data).s);
      && |es| >= 12
      && forall i :: 0 <= i < 12 ==> es[i] == GlobalSensor(Dashed(deviceId, Sensors[i].key), Sensors[i])
  {
    SensorKeysDistinct();
  }

  /** The global unique ids are pairwise distinct. */
  lemma GlobalIdsDistinct(deviceId: string)
    ensures forall i, j :: 0 <= i < j < |Sensors| ==>
      GlobalEntities(deviceId)[i].uniqueId != GlobalEntities(deviceId)[j].uniqueId
  {
    SensorKeysDistinct();
    forall i, j | 0 <= i < j < |Sensors|
      ensures GlobalEntities(deviceId)[i].uniqueId != GlobalEntities(deviceId)[j].uniqueId
    {
      GlobalIdsInjective(deviceId, Sensors[i].key, Sensors[j].key);
    }
  }

  /** Entities of earlier nodes come first, and setup raises exactly when
      some node raises. */
  lemma NodeOrder(deviceId: string, nodes: seq<Json>, i: nat)
    requires i <= |nodes|
    ensures NodeEntities(deviceId, nodes).Raised? <==>
      exists j :: 0 <= j < |nodes| && NodeContribution(deviceId, nodes[j]).Raised?
    ensures NodeEntities(deviceId, nodes).Ok? ==>
      && NodeEntities(deviceId, nodes[..i]).Ok?
      && NodeEntities(deviceId, nodes[..i]).value <= NodeEntities(deviceId, nodes).value
  {
    var rs := Contributions(deviceId, nodes);
    CollectRaise(rs);
    assert Contributions(deviceId, nodes[..i]) == rs[..i];
    if Collect(rs).Ok? {
      CollectOrder(rs, i);
    }
  }

  /** Within one node the unique ids are pairwise distinct. */
  lemma NodeIdsDistinctWithinNode(deviceId: string, node: Json)
    requires NodeContribution(deviceId, node).Ok?
    ensures var es := NodeContribution(deviceId, node).value;
      forall i, j :: 0 <= i < j < |es| ==> es[i].uniqueId != es[j].uniqueId
  {
    var es := NodeContribution(deviceId, node).value;
    if es != [] {
      var t := NodeType(node.entries);
      var ds := NodeSensors[t.s];
      var prefix := Dashed(deviceId, Show(NodeId(node.entries)));
      NodeSensorsWellFormed();
      assert DistinctNodeSensorKeys(ds);
      forall i, j | 0 <= i < j < |es| ensures es[i].uniqueId != es[j].uniqueId {
        GlobalIdsInjective(prefix, ds[i].key, ds[j].key);
      }
    }
  }

  /** Two nodes with different numeric ids never share a unique id, and no
      node entity shares one with a global entity. */
  lemma NodeIdsDistinctAcrossNodes(deviceId: string, n1: nat, n2: nat, node1: Json, node2: Json, e1: SensorEntity, e2: SensorEntity, g: nat)
    requires node1.JDict? && NodeId(node1.entries) == JInt(n1)
    requires node2.JDict? && NodeId(node2.entries) == JInt(n2) && n1 != n2
    requires NodeContribution(deviceId, node1).Ok? && e1 in NodeContribution(deviceId, node1).value
    requires NodeContribution(deviceId, node2).Ok? && e2 in NodeContribution(deviceId, node2).value
    requires g < |Sensors|
    ensures e1.uniqueId != e2.uniqueId
    ensures e1.uniqueId != GlobalEntities(deviceId)[g].uniqueId
  {
    NodeSensorsWellFormed();
    var t1, t2 := NodeType(node1.entries), NodeType(node2.entries);
    var es1, es2 := NodeContribution(deviceId, node1).value, NodeContribution(deviceId, node2).value;
    var i :| 0 <= i < |es1| && es1[i] == e1;
    var j :| 0 <= j < |es2| && es2[j] == e2;
    var d1, d2 := NodeSensors[t1.s][i], NodeSensors[t2.s][j];
    assert WellFormedNodeSensor(t1.s, d1) && WellFormedNodeSensor(t2.s, d2);
    assert e1.uniqueId == Dashed(Dashed(deviceId, Decimal(n1)), d1.key);
    assert e2.uniqueId == Dashed(Dashed(deviceId, Decimal(n2)), d2.key);
    SensorsWellFormed();
    assert WellFormedSensor(Sensors[g]);
    NodeIdsInjective(deviceId, n1, d1.key, n2, d2.key);
    NodeIdsInjective(deviceId, n1, d1.key, 0, Sensors[g].key);
  }
}
