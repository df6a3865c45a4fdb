/** The earlier coordinator of model/coordinators.py. It polls the same three
    calls, but its mappings hold only node_id_to_name and it has no one-time
    fetch to merge, so its snapshot has exactly four keys. Its sensor
    entities read values exactly as those of model/coordinator.py do
    (Coordinator.GlobalNativeValue and Coordinator.NodeNativeValue). */
module LegacyCoordinator {
  import opened Text
  import opened Json
  import opened Utils
  import opened Coordinator

  /** The mappings entry of this variant: {'node_id_to_name': ...} alone. */
  function LegacyMappings(nodes: seq<seq<Entry>>): Json
  {
    JDict([Entry(JStr("node_id_to_name"), JDict(NameMap(nodes)))])
  }

  /** The dict this _fetch_data returns, keys in assignment order. */
  function LegacyData(info: Json, nodes: seq<seq<Entry>>, configNodes: Json): (d: seq<Entry>)
    ensures Keys(d) == PolledKeys
  {
    var d := Assign([], JStr("info"), info);
    var d := Assign(d, JStr("nodes"), NodeList(nodes));
    var d := Assign(d, JStr("config_nodes"), configNodes);
    Assign(d, JStr("mappings"), LegacyMappings(nodes))
  }

  /** The outcome of this _fetch_data: the four-key dict, or an exception
      when the client is missing, a call raised or a node id is unhashable. */
  function LegacyFetchSpec(clientPresent: bool, replies: PollReplies): (r: Result<seq<Entry>>)
    ensures r.Ok? <==>
      && clientPresent && replies.info.Ok? && replies.nodes.Ok? && replies.configNodes.Ok?
      && AllIdsHashable(NodesOf(replies.nodes.value))
    ensures r.Ok? ==> Keys(r.value) == PolledKeys
  {
    if !clientPresent || replies.info.Raised? || replies.nodes.Raised? || replies.configNodes.Raised? then Raised
    else
      var nodes := NodesOf(replies.nodes.value);
      if !AllIdsHashable(nodes) then Raised
      else Ok(LegacyData(replies.info.value, nodes, replies.configNodes.value))
  }

  class LegacyDucoboxCoordinator {
    const clientPresent: bool
    /** Maintained by the host, read by the entities. */
    var data: Json
    var lastUpdateSuccess: bool

    constructor(clientPresent: bool)
      ensures this.clientPresent == clientPresent
      ensures data == JNull && lastUpdateSuccess
    {
      this.clientPresent := clientPresent;
      data := JNull;
      lastUpdateSuccess := true;
    }

    /** The loop filling node_id_to_name. The unused node_addr it also
        computes cannot raise and is not modelled. */
    static method BuildNameMap(nodes: seq<seq<Entry>>) returns (names: seq<Entry>, hashable: bool)
      ensures hashable <==> AllIdsHashable(nodes)
      ensures hashable ==> names == NameMap(nodes)
    {
      names := [];
      var i := 0;
      while i < |nodes|
        invariant 0 <= i <= |nodes|
        invariant AllIdsHashable(nodes[..i])
        invariant names == NameMap(nodes[..i])
      {
        NameMapStep(nodes, i);
        HashableStep(nodes, i);
        var nodeId := NodeId(nodes[i]);
        var got := SafeGet(JDict(nodes[i]), Path(TypePath));
        var walked := got.value;
        var nodeType := Or(walked, JStr("Unknown"));
        assert nodeType == NodeType(nodes[i]);
        if !Hashable(nodeId) {
          return names, false;
        }
        names := Assign(names, nodeId, JStr(NodeName(nodeId, nodeType)));
        i := i + 1;
      }
      assert nodes[..i] == nodes;
      hashable := true;
    }

    /** _fetch_data of this variant. */
    method FetchData(replies: PollReplies) returns (r: Result<seq<Entry>>)
      ensures r == LegacyFetchSpec(clientPresent, replies)
    {
      if !clientPresent {
        return Raised;
      }
      var data: seq<Entry> := [];
      if replies.info.Raised? {
        return Raised;
      }
      data := Assign(data, JStr("info"), replies.info.value);
      if replies.nodes.Raised? {
        return Raised;
      }
      var nodes := NodesOf(replies.nodes.value);
      data := Assign(data, JStr("nodes"), NodeList(nodes));
      if replies.configNodes.Raised? {
        return Raised;
      }
      data := Assign(data, JStr("config_nodes"), replies.configNodes.value);
      var names, hashable := BuildNameMap(nodes);
      if !hashable {
        return Raised;
      }
      data := Assign(data, JStr("mappings"), JDict([Entry(JStr("node_id_to_name"), JDict(names))]));
      r := Ok(data);
    }

    /** _async_update_data of this variant: any exception becomes UpdateFailed. */
    method AsyncUpdateData(replies: PollReplies) returns (u: Update)
      ensures u.UpdateFailed? <==> LegacyFetchSpec(clientPresent, replies).Raised?
      ensures u.Updated? ==> u.data == JDict(LegacyFetchSpec(clientPresent, replies).value)
    {
      var r := FetchData(replies);
      if r.Raised? {
        return UpdateFailed;
      }
      u := Updated(JDict(r.value));
    }
  }

  /** Each key of the four-key dict reads back what was assigned to it. */
  lemma LegacyDataGet(info: Json, nodes: seq<seq<Entry>>, configNodes: Json, k: Json)
    ensures Get(LegacyData(info, nodes, configNodes), k) ==
      if k == JStr("info") then info
      else if k == JStr("nodes") then NodeList(nodes)
      else if k == JStr("config_nodes") then configNodes
      else if k == JStr("mappings") then LegacyMappings(nodes)
      else JNull
  {
  }

  /** A poll this variant survives also succeeds in the current coordinator
      once its static data is there, and both read info, nodes and
      config_nodes alike. */
  lemma LegacySharesPolledFields(actionNodes: Json, replies: PollReplies, k: Json)
    requires LegacyFetchSpec(true, replies).Ok?
    requires k in {JStr("info"), JStr("nodes"), JStr("config_nodes")}
    ensures FetchSpec(true, Some(FetchOnceData(actionNodes)), replies).Ok?
    ensures Get(LegacyFetchSpec(true, replies).value, k)
         == Get(FetchSpec(true, Some(FetchOnceData(actionNodes)), replies).value, k)
  {
    var nodes := NodesOf(replies.nodes.value);
    LegacyDataGet(replies.info.value, nodes, replies.configNodes.value, k);
    SnapshotContents(FetchOnceData(actionNodes), replies, k);
  }

  /** The mappings of this variant hold the same name map as the current
      coordinator's and no type map; there is no action_nodes key. */
  lemma LegacyMappingsAreNamesOnly(replies: PollReplies)
    requires LegacyFetchSpec(true, replies).Ok?
    ensures var nodes := NodesOf(replies.nodes.value);
      var m := Get(LegacyFetchSpec(true, replies).value, JStr("mappings"));
      && m.JDict?
      && Get(m.entries, JStr("node_id_to_name")) == Get(Mappings(nodes).entries, JStr("node_id_to_name"))
      && Keys(m.entries) == {JStr("node_id_to_name")}
      && Keys(Mappings(nodes).entries) == {JStr("node_id_to_name"), JStr("node_id_to_type")}
    ensures !Has(LegacyFetchSpec(true, replies).value, JStr("action_nodes"))
  {
    var nodes := NodesOf(replies.nodes.value);
    LegacyDataGet(replies.info.value, nodes, replies.configNodes.value, JStr("mappings"));
    var two := Mappings(nodes).entries;
    assert two[1..] == [two[1]];
  }
}
