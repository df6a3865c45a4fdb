/** The update coordinator of model/coordinator.py: how one poll of the box
    becomes the snapshot every entity reads, the one-time fetch merged into
    it, the payload written back for a number entity, and how the two sensor
    entity kinds read their value out of the snapshot.

    The client's calls (get_info, get_nodes, raw_get, raw_patch,
    change_action_node) are not modelled; what they return, or that they
    raised, is a parameter. */
module Coordinator {
  import opened Text
  import opened Json
  import opened Utils
  import opened Devices

  // ---------------------------------------------------------------------------
  // Nodes and the id mappings
  // ---------------------------------------------------------------------------

  /** What the client's three calls of one poll gave back. `nodes` is None
      when the get_nodes response is falsy or has no Nodes attribute, and
      otherwise holds node.dict() of every node. */
  datatype PollReplies = PollReplies(
    info: Result<Json>,
    nodes: Result<Option<seq<seq<Entry>>>>,
    configNodes: Result<Json>)

  /** The node list stored in the snapshot: [] when the response had no Nodes. */
  function NodesOf(response: Option<seq<seq<Entry>>>): (nodes: seq<seq<Entry>>)
    ensures response.None? ==> nodes == []
    ensures response.Some? ==> nodes == response.value
  {
    if response.None? then [] else response.value
  }

  function NodeList(nodes: seq<seq<Entry>>): (j: Json)
    ensures j.JList? && |j.items| == |nodes|
    ensures forall i :: 0 <= i < |nodes| ==> j.items[i] == JDict(nodes[i])
  {
    JList(seq(|nodes|, i requires 0 <= i < |nodes| => JDict(nodes[i])))
  }

  /** node.get('Node'). */
  function NodeId(node: seq<Entry>): Json
  {
    Get(node, JStr("Node"))
  }

  const TypePath: seq<string> := ["General", "Type", "Val"]

  /** safe_get(node, 'General', 'Type', 'Val') or 'Unknown'. */
  function NodeType(node: seq<Entry>): (t: Json)
    ensures Truthy(t)
    ensures Truthy(Walk(JDict(node), Path(TypePath))) ==> t == Walk(JDict(node), Path(TypePath))
    ensures !Truthy(Walk(JDict(node), Path(TypePath))) ==> t == JStr("Unknown")
  {
    Or(Walk(JDict(node), Path(TypePath)), JStr("Unknown"))
  }

  /** f"{node_id}:{node_type}". */
  function NodeName(id: Json, nodeType: Json): string
  {
    Show(id) + ":" + Show(nodeType)
  }

  /** Every node id can be a dict key; a list or dict id raises TypeError. */
  predicate AllIdsHashable(nodes: seq<seq<Entry>>)
  {
    forall i :: 0 <= i < |nodes| ==> Hashable(NodeId(nodes[i]))
  }

  function NodeIds(nodes: seq<seq<Entry>>): set<Json>
  {
    set i | 0 <= i < |nodes| :: NodeId(nodes[i])
  }

  /** mappings['node_id_to_name'] after the loop has seen `nodes`. */
  function NameMap(nodes: seq<seq<Entry>>): (r: seq<Entry>)
    ensures |r| <= |nodes|
    decreases |nodes|
  {
    if nodes == [] then []
    else
      var n := nodes[|nodes| - 1];
      Assign(NameMap(nodes[..|nodes| - 1]), NodeId(n), JStr(NodeName(NodeId(n), NodeType(n))))
  }

  /** mappings['node_id_to_type'] after the loop has seen `nodes`. */
  function TypeMap(nodes: seq<seq<Entry>>): (r: seq<Entry>)
    ensures |r| <= |nodes|
    decreases |nodes|
  {
    if nodes == [] then []
    else
      var n := nodes[|nodes| - 1];
      Assign(TypeMap(nodes[..|nodes| - 1]), NodeId(n), NodeType(n))
  }

  /** The ids of a list are those of all but its last node, plus the last. */
  lemma NodeIdsSnoc(nodes: seq<seq<Entry>>)
    requires nodes != []
    ensures NodeIds(nodes) == NodeIds(nodes[..|nodes| - 1]) + {NodeId(nodes[|nodes| - 1])}
  {
    var init := nodes[..|nodes| - 1];
    forall k | k in NodeIds(nodes) ensures k in NodeIds(init) + {NodeId(nodes[|nodes| - 1])} {
      var i :| 0 <= i < |nodes| && NodeId(nodes[i]) == k;
      if i < |nodes| - 1 {
        assert init[i] == nodes[i];
      }
    }
    forall k | k in NodeIds(init) ensures k in NodeIds(nodes) {
      var i :| 0 <= i < |init| && NodeId(init[i]) == k;
      assert nodes[i] == init[i];
    }
  }

  /** Both maps are keyed by exactly the node ids of the list. */
  lemma {:induction false} MappingKeys(nodes: seq<seq<Entry>>)
    ensures Keys(NameMap(nodes)) == NodeIds(nodes)
    ensures Keys(TypeMap(nodes)) == NodeIds(nodes)
    decreases |nodes|
  {
    if nodes != [] {
      MappingKeys(nodes[..|nodes| - 1]);
      NodeIdsSnoc(nodes);
    }
  }

  /** The last node carrying an id decides both map entries for that id. */
  lemma {:induction false} MappingLastWins(nodes: seq<seq<Entry>>, i: nat)
    requires i < |nodes|
    requires forall j :: i < j < |nodes| ==> NodeId(nodes[j]) != NodeId(nodes[i])
    ensures Get(TypeMap(nodes), NodeId(nodes[i])) == NodeType(nodes[i])
    ensures Get(NameMap(nodes), NodeId(nodes[i])) == JStr(NodeName(NodeId(nodes[i]), NodeType(nodes[i])))
    decreases |nodes|
  {
    if i < |nodes| - 1 {
      var init := nodes[..|nodes| - 1];
      assert init[i] == nodes[i];
      forall j | i < j < |init| ensures NodeId(init[j]) != NodeId(init[i]) {
        assert init[j] == nodes[j];
      }
      MappingLastWins(init, i);
    }
  }

  /** One more node extends the name map by one assignment. */
  lemma NameMapStep(nodes: seq<seq<Entry>>, i: nat)
    requires i < |nodes|
    ensures NameMap(nodes[..i + 1])
      == Assign(NameMap(nodes[..i]), NodeId(nodes[i]), JStr(NodeName(NodeId(nodes[i]), NodeType(nodes[i]))))
  {
    assert nodes[..i + 1][..i] == nodes[..i];
  }

  /** The ids seen so far stay hashable exactly while each new one is. */
  lemma HashableStep(nodes: seq<seq<Entry>>, i: nat)
    requires i < |nodes|
    ensures AllIdsHashable(nodes[..i + 1]) <==> AllIdsHashable(nodes[..i]) && Hashable(NodeId(nodes[i]))
    ensures !Hashable(NodeId(nodes[i])) ==> !AllIdsHashable(nodes)
  {
  }

  /** One more node extends the type map by one assignment. */
  lemma TypeMapStep(nodes: seq<seq<Entry>>, i: nat)
    requires i < |nodes|
    ensures TypeMap(nodes[..i + 1]) == Assign(TypeMap(nodes[..i]), NodeId(nodes[i]), NodeType(nodes[i]))
  {
    assert nodes[..i + 1][..i] == nodes[..i];
  }

  /** The mappings entry: {'node_id_to_name': ..., 'node_id_to_type': ...}. */
  function Mappings(nodes: seq<seq<Entry>>): Json
  {
    JDict([Entry(JStr("node_id_to_name"), JDict(NameMap(nodes))),
           Entry(JStr("node_id_to_type"), JDict(TypeMap(nodes)))])
  }

  // ---------------------------------------------------------------------------
  // The snapshot
  // ---------------------------------------------------------------------------

  /** What _fetch_once_data returns: {'action_nodes': <reply>}. */
  function FetchOnceData(actionNodes: Json): (d: seq<Entry>)
    ensures Keys(d) == {JStr("action_nodes")}
    ensures Get(d, JStr("action_nodes")) == actionNodes
    ensures DistinctKeys(d)
  {
    [Entry(JStr("action_nodes"), actionNodes)]
  }

  const PolledKeys: set<Json> := {JStr("info"), JStr("nodes"), JStr("config_nodes"), JStr("mappings")}

  /** The dict _fetch_data builds before the static merge, its keys assigned
      in the order the code assigns them. */
  function PolledData(info: Json, nodes: seq<seq<Entry>>, configNodes: Json): (d: seq<Entry>)
    ensures Keys(d) == PolledKeys
  {
    var d := Assign([], JStr("info"), info);
    var d := Assign(d, JStr("nodes"), NodeList(nodes));
    var d := Assign(d, JStr("config_nodes"), configNodes);
    Assign(d, JStr("mappings"), Mappings(nodes))
  }

  /** Each of the four keys reads back what was assigned to it. */
  lemma PolledDataGet(info: Json, nodes: seq<seq<Entry>>, configNodes: Json, k: Json)
    ensures Get(PolledData(info, nodes, configNodes), k) ==
      if k == JStr("info") then info
      else if k == JStr("nodes") then NodeList(nodes)
      else if k == JStr("config_nodes") then configNodes
      else if k == JStr("mappings") then Mappings(nodes)
      else JNull
  {
  }

  /** The outcome of _fetch_data: the polled dict overlaid with the static
      data, or an exception when the client is missing, a call raised, a node
      id is unhashable or the static data was never fetched. */
  function FetchSpec(clientPresent: bool, staticData: Option<seq<Entry>>, replies: PollReplies): (r: Result<seq<Entry>>)
    ensures r.Ok? <==>
      && clientPresent && replies.info.Ok? && replies.nodes.Ok? && replies.configNodes.Ok?
      && AllIdsHashable(NodesOf(replies.nodes.value)) && staticData.Some?
    ensures r.Ok? ==> Keys(r.value) == PolledKeys + Keys(staticData.value)
  {
    if !clientPresent || replies.info.Raised? || replies.nodes.Raised? || replies.configNodes.Raised? then Raised
    else
      var nodes := NodesOf(replies.nodes.value);
      if !AllIdsHashable(nodes) || staticData.None? then Raised
      else
        Ok(Overlay(PolledData(replies.info.value, nodes, replies.configNodes.value), staticData.value))
  }

  /** Every key of the snapshot reads what the poll or the static data put
      there, static keys winning. */
  lemma SnapshotContents(staticData: seq<Entry>, replies: PollReplies, k: Json)
    requires DistinctKeys(staticData)
    requires FetchSpec(true, Some(staticData), replies).Ok?
    ensures var snapshot := FetchSpec(true, Some(staticData), replies).value;
      var nodes := NodesOf(replies.nodes.value);
      Get(snapshot, k) ==
        if Has(staticData, k) then Get(staticData, k)
        else if k == JStr("info") then replies.info.value
        else if k == JStr("nodes") then NodeList(nodes)
        else if k == JStr("config_nodes") then replies.configNodes.value
        else if k == JStr("mappings") then Mappings(nodes)
        else JNull
  {
    var nodes := NodesOf(replies.nodes.value);
    var polled := PolledData(replies.info.value, nodes, replies.configNodes.value);
    OverlayGet(polled, staticData, k);
    PolledDataGet(replies.info.value, nodes, replies.configNodes.value, k);
  }

  /** After the one-time fetch, every snapshot has exactly the five keys and
      carries the fetched action_nodes, and nodes is [] when the response had
      no Nodes. */
  lemma ActionNodesInEverySnapshot(actionNodes: Json, replies: PollReplies)
    requires FetchSpec(true, Some(FetchOnceData(actionNodes)), replies).Ok?
    ensures var snapshot := FetchSpec(true, Some(FetchOnceData(actionNodes)), replies).value;
      && Keys(snapshot) == PolledKeys + {JStr("action_nodes")}
      && Get(snapshot, JStr("action_nodes")) == actionNodes
      && Get(snapshot, JStr("info")) == replies.info.value
      && Get(snapshot, JStr("config_nodes")) == replies.configNodes.value
      && (replies.nodes.value.None? ==> Get(snapshot, JStr("nodes")) == JList([]))
  {
    var s := FetchOnceData(actionNodes);
    SnapshotContents(s, replies, JStr("action_nodes"));
    SnapshotContents(s, replies, JStr("info"));
    SnapshotContents(s, replies, JStr("config_nodes"));
    SnapshotContents(s, replies, JStr("nodes"));
  }

  /** The outcome of _async_update_data: the snapshot, or UpdateFailed
      wrapping whatever _fetch_data raised. */
  datatype Update = Updated(data: Json) | UpdateFailed

  /** The request async_set_value sends: raw_patch(path, body). */
  datatype PatchRequest = PatchRequest(path: string, body: string)

  /** The request async_set_ventilation_state sends:
      change_action_node(action, option, node_id). */
  datatype ActionRequest = ActionRequest(action: string, option: string, nodeId: Json)

  class DucoboxCoordinator {
    /** Whether duco_client is not None. */
    const clientPresent: bool
    /** _static_data: None until _async_setup has run. */
    var staticData: Option<seq<Entry>>
    /** The snapshot and the success flag of the last refresh. The host's
        DataUpdateCoordinator maintains both; entities only read them. */
    var data: Json
    var lastUpdateSuccess: bool

    constructor(clientPresent: bool)
      ensures this.clientPresent == clientPresent
      ensures staticData == None
      ensures data == JNull && lastUpdateSuccess
    {
      this.clientPresent := clientPresent;
      staticData := None;
      data := JNull;
      lastUpdateSuccess := true;
    }

    /** _async_setup: store what _fetch_once_data returns. Without a client
        the raw_get attribute lookup raises, and when raw_get raises the
        exception propagates; either way nothing is stored. */
    method AsyncSetup(actionNodes: Result<Json>) returns (raised: bool)
      modifies this
      ensures raised <==> !clientPresent || actionNodes.Raised?
      ensures clientPresent && actionNodes.Ok? ==> staticData == Some(FetchOnceData(actionNodes.value))
      ensures raised ==> staticData == old(staticData)
      ensures data == old(data) && lastUpdateSuccess == old(lastUpdateSuccess)
    {
      if !clientPresent || actionNodes.Raised? {
        return true;
      }
      staticData := Some(FetchOnceData(actionNodes.value));
      raised := false;
    }

    /** _fetch_data: fill the dict key by key, build both mappings in one
        loop over the nodes, and merge the static data last. */
    method FetchData(replies: PollReplies) returns (r: Result<seq<Entry>>)
      ensures r == FetchSpec(clientPresent, staticData, replies)
    {
      if !clientPresent {
        return Raised;
      }
      var data: seq<Entry> := [];
      if replies.info.Raised? {
        return Raised;
      }
      data := Assign(data, JStr("info"), replies.info.value);
      if replies.nodes.Raised? {
        return Raised;
      }
      var nodes := NodesOf(replies.nodes.value);
      data := Assign(data, JStr("nodes"), NodeList(nodes));
      if replies.configNodes.Raised? {
        return Raised;
      }
      data := Assign(data, JStr("config_nodes"), replies.configNodes.value);

      var names, types, hashable := BuildMappings(nodes);
      if !hashable {
        return Raised;
      }
      data := Assign(data, JStr("mappings"), JDict([Entry(JStr("node_id_to_name"), JDict(names)),
                                                  Entry(JStr("node_id_to_type"), JDict(types))]));
      if staticData.None? {
        return Raised;
      }
      r := Ok(Overlay(data, staticData.value));
    }

    /** The loop of _fetch_data that fills node_id_to_name and
        node_id_to_type; it stops with TypeError at the first id that
        cannot be a dict key. */
    static method BuildMappings(nodes: seq<seq<Entry>>) returns (names: seq<Entry>, types: seq<Entry>, hashable: bool)
      ensures hashable <==> AllIdsHashable(nodes)
      ensures hashable ==> names == NameMap(nodes) && types == TypeMap(nodes)
    {
      names, types := [], [];
      var i := 0;
      while i < |nodes|
        invariant 0 <= i <= |nodes|
        invariant AllIdsHashable(nodes[..i])
        invariant names == NameMap(nodes[..i])
        invariant types == TypeMap(nodes[..i])
      {
        NameMapStep(nodes, i);
        TypeMapStep(nodes, i);
        HashableStep(nodes, i);
        var nodeId := NodeId(nodes[i]);
        var got := SafeGet(JDict(nodes[i]), Path(TypePath));
        var walked := got.value;
        var nodeType := Or(walked, JStr("Unknown"));
        assert nodeType == NodeType(nodes[i]);
        if !Hashable(nodeId) {
          return names, types, false;
        }
        names := Assign(names, nodeId, JStr(NodeName(nodeId, nodeType)));
        types := Assign(types, nodeId, nodeType);
        i := i + 1;
      }
      assert nodes[..i] == nodes;
      hashable := true;
    }

    /** _async_update_data: any exception of _fetch_data becomes UpdateFailed. */
    method AsyncUpdateData(replies: PollReplies) returns (u: Update)
      ensures u.UpdateFailed? <==> FetchSpec(clientPresent, staticData, replies).Raised?
      ensures u.Updated? ==> u.data == JDict(FetchSpec(clientPresent, staticData, replies).value)
    {
      var r := FetchData(replies);
      if r.Raised? {
        return UpdateFailed;
      }
      u := Updated(JDict(r.value));
    }
  }

  // ---------------------------------------------------------------------------
  // The set-value payload
  // ---------------------------------------------------------------------------

  const NodeConfigPath: string := "/config/nodes/"
  const PayloadHead: string := "{\""
  const ValHead: string := "\":{\"Val\":"
  const PayloadTail: string := "}}"

  /** What async_set_value sends for a new value of config field `key` of
      node `nodeId`: json.dumps({key: {'Val': int(round(value, 0))}}) with
      compact separators, patched to /config/nodes/<node_id>. */
  function SetValueRequest(nodeId: Json, key: string, value: real): (r: PatchRequest)
    ensures StartsWith(r.path, NodeConfigPath)
    ensures nodeId.JInt? ==> ParseDecimal(r.path[|NodeConfigPath|..]) == Some(nodeId.i)
  {
    var path := NodeConfigPath + Show(nodeId);
    assert path[|NodeConfigPath|..] == Show(nodeId);
    PatchRequest(path, PayloadHead + key + ValHead + Decimal(RoundHalfEven(value)) + PayloadTail)
  }

  /** Reads a payload back: the field name up to the first quote, then the
      written integer. */
  function ParsePayload(body: string): Option<(string, int)>
  {
    if !StartsWith(body, PayloadHead) then None
    else
      var rest := body[|PayloadHead|..];
      var key := TakeUntil(rest, '"');
      var after := rest[|key|..];
      if |after| < |ValHead| + |PayloadTail| || after[..|ValHead|] != ValHead
        || after[|after| - |PayloadTail|..] != PayloadTail then None
      else
        match ParseDecimal(after[|ValHead|..|after| - |PayloadTail|])
        case None => None
        case Some(n) => Some((key, n))
  }

  /** ParsePayload finds the field name and the text of the value again. */
  lemma ParsePayloadSplits(key: string, mid: string)
    requires '"' !in key
    ensures ParsePayload(PayloadHead + key + ValHead + mid + PayloadTail) ==
      match ParseDecimal(mid)
      case None => None
      case Some(n) => Some((key, n))
  {
    var after := ValHead + mid + PayloadTail;
    var body := PayloadHead + key + ValHead + mid + PayloadTail;
    assert body == PayloadHead + (key + after);
    assert body[..|PayloadHead|] == PayloadHead;
    var rest := body[|PayloadHead|..];
    assert rest == key + after;
    assert after == [after[0]] + after[1..];
    assert rest == key + ['"'] + after[1..];
    TakeUntilPrefix(key, '"', after[1..]);
    assert rest[|key|..] == after;
    assert after[..|ValHead|] == ValHead;
    assert after[|after| - |PayloadTail|..] == PayloadTail;
    assert after[|ValHead|..|after| - |PayloadTail|] == mid;
  }

  /** The payload carries exactly the field name and the value rounded half
      to even; the path names the node. */
  lemma SetValueRoundTrip(nodeId: Json, key: string, value: real)
    requires '"' !in key
    ensures ParsePayload(SetValueRequest(nodeId, key, value).body) == Some((key, RoundHalfEven(value)))
    ensures SetValueRequest(nodeId, key, value).path == NodeConfigPath + Show(nodeId)
  {
    ParsePayloadSplits(key, Decimal(RoundHalfEven(value)));
    DecimalRoundTrip(RoundHalfEven(value));
  }

  /** 21.7 is written as 22, with the node id in the path. */
  lemma SetValueExampleNearest()
    ensures SetValueRequest(JInt(2), "FlowLvlMan1", 21.7)
      == PatchRequest("/config/nodes/2", "{\"FlowLvlMan1\":{\"Val\":22}}")
  {
    RoundHalfEvenUnique(21.7, 22);
    assert Digits(22) == Digits(2) + [DigitChar(2)];
    assert Decimal(22) == "22";
    assert Show(JInt(2)) == "2";
  }

  /** 2.5 is a tie and goes to the even neighbour 2. */
  lemma SetValueExampleTie()
    ensures SetValueRequest(JInt(2), "FlowLvlMan1", 2.5).body == "{\"FlowLvlMan1\":{\"Val\":2}}"
  {
    RoundHalfEvenUnique(2.5, 2);
    assert Decimal(2) == "2";
  }

  // ---------------------------------------------------------------------------
  // Sensor entities
  // ---------------------------------------------------------------------------

  /** A DucoboxSensorEntity or a DucoboxNodeSensorEntity: what each is built
      with, less the device info and display name. */
  datatype SensorEntity =
    | GlobalSensor(uniqueId: string, description: SensorDescription)
    | NodeSensor(uniqueId: string, nodeId: Json, nodeName: string, nodeDescription: NodeSensorDescription)

  /** available: the coordinator's last_update_success, for both kinds. */
  function Available(e: SensorEntity, c: DucoboxCoordinator): (b: bool)
    reads c
    ensures b == c.lastUpdateSuccess
  {
    c.lastUpdateSuccess
  }

  /** native_value of a global sensor: value_fn(data), with any exception
      turned into None. */
  function GlobalNativeValue(d: SensorDescription, data: Json): (v: Json)
    ensures v == JNull <==> Walk(data, Path(d.path)) == JNull || ValueFn(d.path, d.normaliser, data).Raised?
    ensures IsPassThrough(d.normaliser) ==> v == Walk(data, Path(d.path))
  {
    match ValueFn(d.path, d.normaliser, data)
    case Ok(x) => x
    case Raised => JNull
  }

  /** value_fn(node) inside try/except: an exception reads as None. */
  function GuardedNodeValue(d: NodeSensorDescription, node: Json): (v: Json)
    ensures ValueFn(d.path, d.normaliser, node).Raised? ==> v == JNull
    ensures ValueFn(d.path, d.normaliser, node).Ok? ==> v == ValueFn(d.path, d.normaliser, node).value
    ensures Walk(node, Path(d.path)) == JNull ==> v == JNull
  {
    match ValueFn(d.path, d.normaliser, node)
    case Ok(x) => x
    case Raised => JNull
  }

  predicate IsNodeWithId(j: Json, id: Json)
  {
    j.JDict? && Get(j.entries, JStr("Node")) == id
  }

  /** Every item before index i is a dict whose 'Node' is not id. */
  predicate NoMatchBefore(items: seq<Json>, id: Json, i: int)
  {
    forall j :: 0 <= j < i && j < |items| ==> items[j].JDict? && !IsNodeWithId(items[j], id)
  }

  /** The loop of the node native_value over the snapshot's nodes: the first
      node whose 'Node' equals the id decides the value; no match gives None.
      Calling .get on an item that is not a dict raises before the match. */
  function ScanNodes(d: NodeSensorDescription, id: Json, items: seq<Json>): (r: Result<Json>)
    ensures (forall i :: 0 <= i < |items| ==> items[i].JDict?) ==> r.Ok?
    ensures (forall i :: 0 <= i < |items| ==> items[i].JDict? && !IsNodeWithId(items[i], id)) ==> r == Ok(JNull)
    ensures forall i :: 0 <= i < |items| && IsNodeWithId(items[i], id) && NoMatchBefore(items, id, i) ==>
      r == Ok(GuardedNodeValue(d, items[i]))
    decreases |items|
  {
    if items == [] then Ok(JNull)
    else if !items[0].JDict? then Raised
    else if Get(items[0].entries, JStr("Node")) == id then Ok(GuardedNodeValue(d, items[0]))
    else
      var r := ScanNodes(d, id, items[1..]);
      assert forall i :: 1 <= i < |items| ==> items[i] == items[1..][i - 1];
      r
  }

  /** native_value of a node sensor: data.get('nodes', []) scanned by
      ScanNodes. The lookup itself is outside the try, so a snapshot that is
      not a dict, or nodes that cannot be iterated, raise. */
  function NodeNativeValue(d: NodeSensorDescription, id: Json, data: Json): (r: Result<Json>)
    ensures !data.JDict? ==> r.Raised?
    ensures data.JDict? && !Has(data.entries, JStr("nodes")) ==> r == Ok(JNull)
    ensures data.JDict? && Get(data.entries, JStr("nodes")).JList? ==>
      r == ScanNodes(d, id, Get(data.entries, JStr("nodes")).items)
    ensures data.JDict? && Has(data.entries, JStr("nodes")) ==>
      (Iterate(Get(data.entries, JStr("nodes"))).Raised? ==> r.Raised?)
  {
    match GetOr(data, "nodes", JList([]))
    case Raised => Raised
    case Ok(nodes) =>
      match Iterate(nodes)
      case Raised => Raised
      case Ok(items) => ScanNodes(d, id, items)
  }

  /** The value an entity shows for the snapshot `data`. */
  function NativeValue(e: SensorEntity, data: Json): Result<Json>
  {
    match e
    case GlobalSensor(_, d) => Ok(GlobalNativeValue(d, data))
    case NodeSensor(_, id, _, d) => NodeNativeValue(d, id, data)
  }
}
