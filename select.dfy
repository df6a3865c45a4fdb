/** select.py: one ventilation-state select entity per SetVentilationState
    action of an action node, and the entity through which the user picks a
    state. */
module SelectPlatform {
  import opened Text
  import opened Json
  import opened Utils
  import opened Coordinator
  import opened Entities

  const ActionNodesPath: seq<string> := ["action_nodes", "Nodes"]
  const VentilationAction: string := "SetVentilationState"

  /** The arguments a DucoboxVentilationStateSelectEntity is built from; its
      action is always SetVentilationState. */
  datatype SelectSpec = SelectSpec(uniqueId: string, nodeId: Json, nodeName: string, nodeType: Json, options: Json)

  /** An action the loop turns into an entity: action['Action'] succeeds and
      names SetVentilationState. */
  predicate IsVentilationAction(action: Json)
  {
    Subscript(action, "Action") == Ok(JStr(VentilationAction))
  }

  /** The ventilation actions of a node, in the node's order. */
  function VentilationActions(actions: seq<Json>): (r: seq<Json>)
    ensures |r| <= |actions|
    ensures forall a :: a in r <==> a in actions && IsVentilationAction(a)
    decreases |actions|
  {
    if actions == [] then []
    else
      var init, last := actions[..|actions| - 1], actions[|actions| - 1];
      assert actions == init + [last];
      var prev := VentilationActions(init);
      if IsVentilationAction(last) then prev + [last] else prev
  }

  /** The loop over node.get('Actions', []): action['Action'] raises on an
      action that is not a dict holding "Action", and action['Enum'] on a
      ventilation action without "Enum". */
  function ActionEntities(nodeDeviceId: string, nodeId: Json, nodeName: string, nodeType: Json, actions: seq<Json>): (r: Result<seq<SelectSpec>>)
    ensures r.Ok? ==> |r.value| <= |actions|
    decreases |actions|
  {
    if actions == [] then Ok([])
    else
      var last := actions[|actions| - 1];
      match ActionEntities(nodeDeviceId, nodeId, nodeName, nodeType, actions[..|actions| - 1])
      case Raised => Raised
      case Ok(es) =>
        match Subscript(last, "Action")
        case Raised => Raised
        case Ok(name) =>
          if name != JStr(VentilationAction) then Ok(es)
          else
            match Subscript(last, "Enum")
            case Raised => Raised
            case Ok(options) =>
              Ok(es + [SelectSpec(Dashed(nodeDeviceId, VentilationAction), nodeId, nodeName, nodeType, options)])
  }

  /** An action the loop gets through: it has an "Action", and an "Enum"
      too when it is a ventilation action. */
  predicate ActionAccepted(action: Json)
  {
    && Subscript(action, "Action").Ok?
    && (IsVentilationAction(action) ==> Subscript(action, "Enum").Ok?)
  }

  /** The loop raises exactly when some action is not accepted. */
  lemma {:induction false} ActionEntitiesRaise(nodeDeviceId: string, nodeId: Json, nodeName: string, nodeType: Json, actions: seq<Json>)
    ensures ActionEntities(nodeDeviceId, nodeId, nodeName, nodeType, actions).Raised?
        <==> exists i :: 0 <= i < |actions| && !ActionAccepted(actions[i])
    decreases |actions|
  {
    if actions != [] {
      var init, last := actions[..|actions| - 1], actions[|actions| - 1];
      ActionEntitiesRaise(nodeDeviceId, nodeId, nodeName, nodeType, init);
      if exists i :: 0 <= i < |init| && !ActionAccepted(init[i]) {
        var i :| 0 <= i < |init| && !ActionAccepted(init[i]);
        assert actions[i] == init[i];
      }
      if exists i :: 0 <= i < |actions| && !ActionAccepted(actions[i]) {
        var i :| 0 <= i < |actions| && !ActionAccepted(actions[i]);
        if i < |init| {
          assert actions[i] == init[i];
        }
      }
    }
  }

  /** Otherwise the loop yields one entity per ventilation action, in order,
      carrying that action's Enum as its options and the node's one
      ventilation-state unique id. */
  lemma {:induction false} ActionEntitiesContents(nodeDeviceId: string, nodeId: Json, nodeName: string, nodeType: Json, actions: seq<Json>)
    requires ActionEntities(nodeDeviceId, nodeId, nodeName, nodeType, actions).Ok?
    ensures var es := ActionEntities(nodeDeviceId, nodeId, nodeName, nodeType, actions).value;
      var va := VentilationActions(actions);
      && |es| == |va|
      && forall j :: 0 <= j < |es| ==>
           && es[j] == SelectSpec(Dashed(nodeDeviceId, VentilationAction), nodeId, nodeName, nodeType, es[j].options)
           && Subscript(va[j], "Enum") == Ok(es[j].options)
    decreases |actions|
  {
    if actions != [] {
      var init, last := actions[..|actions| - 1], actions[|actions| - 1];
      assert actions == init + [last];
      ActionEntitiesContents(nodeDeviceId, nodeId, nodeName, nodeType, init);
      var va, vaInit := VentilationActions(actions), VentilationActions(init);
      if IsVentilationAction(last) {
        assert va == vaInit + [last];
      } else {
        assert va == vaInit;
      }
    }
  }

  /** What one action node contributes. node['Node'] raises unless the node
      is a dict holding "Node"; the mapping lookups raise on an unhashable
      node id; node.get('Actions', []) must be iterable. */
  function SelectNodeContribution(deviceId: string, data: Json, node: Json): (r: Result<seq<SelectSpec>>)
    ensures Subscript(node, "Node").Raised? ==> r.Raised?
  {
    match Subscript(node, "Node")
    case Raised => Raised
    case Ok(nodeId) =>
      match Lookup(data, Path(TypeTable) + [nodeId])
      case Raised => Raised
      case Ok(t) =>
        match Lookup(data, Path(NameTable) + [nodeId])
        case Raised => Raised
        case Ok(mapped) =>
          match GetOr(node, "Actions", JList([]))
          case Raised => Raised
          case Ok(actionsValue) =>
            match Iterate(actionsValue)
            case Raised => Raised
            case Ok(actions) =>
              ActionEntities(Dashed(deviceId, Show(nodeId)), nodeId, deviceId + ":" + Show(mapped), Or(t, JStr("Unknown")), actions)
  }

  /** With a hashable node id, a node contributes exactly what its actions
      yield, named after the snapshot's node-id maps; actions that cannot be
      iterated raise. */
  lemma HashableSelectNodeContribution(deviceId: string, data: Json, node: Json)
    requires node.JDict? && Has(node.entries, JStr("Node")) && Hashable(Get(node.entries, JStr("Node")))
    ensures var acts := Iterate(GetOr(node, "Actions", JList([])).value);
      acts.Raised? ==> SelectNodeContribution(deviceId, data, node).Raised?
    ensures var nodeId := Get(node.entries, JStr("Node"));
      var acts := Iterate(GetOr(node, "Actions", JList([])).value);
      acts.Ok? ==> SelectNodeContribution(deviceId, data, node) == ActionEntities(
        Dashed(deviceId, Show(nodeId)), nodeId,
        deviceId + ":" + Show(Walk(data, Path(NameTable) + [nodeId])),
        Or(Walk(data, Path(TypeTable) + [nodeId]), JStr("Unknown")),
        acts.value)
  {
    var nodeId := Get(node.entries, JStr("Node"));
    LookupAfterPath(data, TypeTable, nodeId);
    LookupAfterPath(data, NameTable, nodeId);
  }

  /** The ventilation actions of a concatenation are those of each part. */
  lemma {:induction false} VentilationActionsAppend(a: seq<Json>, b: seq<Json>)
    ensures VentilationActions(a + b) == VentilationActions(a) + VentilationActions(b)
    decreases |b|
  {
    if b == [] {
      assert a + b == a;
    } else {
      var b', last := b[..|b| - 1], b[|b| - 1];
      assert a + b == (a + b') + [last];
      assert b == b' + [last];
      VentilationActionsSnoc(a + b', last);
      VentilationActionsSnoc(b', last);
      VentilationActionsAppend(a, b');
    }
  }

  /** One more action at the end is kept exactly when it is a ventilation
      action. */
  lemma VentilationActionsSnoc(s: seq<Json>, a: Json)
    ensures VentilationActions(s + [a]) == VentilationActions(s) + if IsVentilationAction(a) then [a] else []
  {
    assert (s + [a])[..|s|] == s;
  }

  /** One action is kept exactly when it is a ventilation action. */
  lemma VentilationActionsSingle(a: Json)
    ensures VentilationActions([a]) == if IsVentilationAction(a) then [a] else []
  {
    assert [a][..0] == [];
  }

  /** What each node of the list contributes. */
  function SelectContributions(deviceId: string, data: Json, nodes: seq<Json>): (rs: seq<Result<seq<SelectSpec>>>)
    ensures |rs| == |nodes|
    ensures forall i :: 0 <= i < |nodes| ==> rs[i] == SelectNodeContribution(deviceId, data, nodes[i])
  {
    seq(|nodes|, i requires 0 <= i < |nodes| => SelectNodeContribution(deviceId, data, nodes[i]))
  }

  /** The entities of the whole node list, in node order. */
  function SelectNodeEntities(deviceId: string, data: Json, nodes: seq<Json>): Result<seq<SelectSpec>>
  {
    Collect(SelectContributions(deviceId, data, nodes))
  }

  /** The outcome of async_setup_entry for the snapshot `data`. Unlike the
      sensor and number platforms this one does not stop without a MAC: it
      goes on with the fallback "unknown_mac". A MAC that is not a string
      raises on .replace. */
  function SelectSetup(data: Json): (r: Setup<SelectSpec>)
    ensures !r.ReturnedEarly?
  {
    var mac := MacAddress(data);
    if !mac.JStr? then SetupRaised
    else SelectsWithDevice(DeviceId(mac.s), data)
  }

  /** The part of setup after the device id is known. */
  function SelectsWithDevice(deviceId: string, data: Json): Setup<SelectSpec>
  {
    match Iterate(Walk(data, Path(ActionNodesPath)))
    case Raised => SetupRaised
    case Ok(nodes) =>
      match SelectNodeEntities(deviceId, data, nodes)
      case Raised => SetupRaised
      case Ok(es) => Added(es)
  }

  // ---------------------------------------------------------------------------
  // The setup loops
  // ---------------------------------------------------------------------------

  lemma ActionEntitiesStep(nodeDeviceId: string, nodeId: Json, nodeName: string, nodeType: Json, actions: seq<Json>, i: nat)
    requires i < |actions|
    ensures ActionEntities(nodeDeviceId, nodeId, nodeName, nodeType, actions[..i + 1]) ==
      match ActionEntities(nodeDeviceId, nodeId, nodeName, nodeType, actions[..i])
      case Raised => Raised
      case Ok(es) =>
        match Subscript(actions[i], "Action")
        case Raised => Raised
        case Ok(name) =>
          if name != JStr(VentilationAction) then Ok(es)
          else
            match Subscript(actions[i], "Enum")
            case Raised => Raised
            case Ok(options) =>
              Ok(es + [SelectSpec(Dashed(nodeDeviceId, VentilationAction), nodeId, nodeName, nodeType, options)])
  {
    assert actions[..i + 1][..i] == actions[..i];
  }

  lemma {:induction false} ActionEntitiesRaisedStays(nodeDeviceId: string, nodeId: Json, nodeName: string, nodeType: Json, actions: seq<Json>, i: nat)
    requires i <= |actions|
    requires ActionEntities(nodeDeviceId, nodeId, nodeName, nodeType, actions[..i]).Raised?
    ensures ActionEntities(nodeDeviceId, nodeId, nodeName, nodeType, actions).Raised?
    decreases |actions| - i
  {
    if i < |actions| {
      ActionEntitiesStep(nodeDeviceId, nodeId, nodeName, nodeType, actions, i);
      ActionEntitiesRaisedStays(nodeDeviceId, nodeId, nodeName, nodeType, actions, i + 1);
    } else {
      assert actions[..i] == actions;
    }
  }

  /** The inner loop over the node's actions. */
  method CollectActions(nodeDeviceId: string, nodeId: Json, nodeName: string, nodeType: Json, actions: seq<Json>)
    returns (r: Result<seq<SelectSpec>>)
    ensures r == ActionEntities(nodeDeviceId, nodeId, nodeName, nodeType, actions)
  {
    var entities: seq<SelectSpec> := [];
    var i := 0;
    while i < |actions|
      invariant 0 <= i <= |actions|
      invariant ActionEntities(nodeDeviceId, nodeId, nodeName, nodeType, actions[..i]) == Ok(entities)
    {
      ActionEntitiesStep(nodeDeviceId, nodeId, nodeName, nodeType, actions, i);
      var name := Subscript(actions[i], "Action");
      if name.Raised? {
        ActionEntitiesRaisedStays(nodeDeviceId, nodeId, nodeName, nodeType, actions, i + 1);
        return Raised;
      }
      if name.value == JStr(VentilationAction) {
        var options := Subscript(actions[i], "Enum");
        if options.Raised? {
          ActionEntitiesRaisedStays(nodeDeviceId, nodeId, nodeName, nodeType, actions, i + 1);
          return Raised;
        }
        entities := entities + [SelectSpec(Dashed(nodeDeviceId, VentilationAction), nodeId, nodeName, nodeType, options.value)];
      }
      i := i + 1;
    }
    assert actions[..i] == actions;
    r := Ok(entities);
  }

  /** One pass of the loop over the action nodes. */
  method CollectSelectNode(deviceId: string, data: Json, node: Json) returns (r: Result<seq<SelectSpec>>)
    ensures r == SelectNodeContribution(deviceId, data, node)
  {
    var subscripted := Subscript(node, "Node");
    if subscripted.Raised? {
      return Raised;
    }
    var nodeId := subscripted.value;
    var typeGot := SafeGet(data, Path(TypeTable) + [nodeId]);
    if typeGot.Raised? {
      return Raised;
    }
    var nodeType := Or(typeGot.value, JStr("Unknown"));
    var nameGot := SafeGet(data, Path(NameTable) + [nodeId]);
    if nameGot.Raised? {
      return Raised;
    }
    var nodeName := deviceId + ":" + Show(nameGot.value);
    var nodeDeviceId := Dashed(deviceId, Show(nodeId));
    var actionsValue := GetOr(node, "Actions", JList([]));
    if actionsValue.Raised? {
      return Raised;
    }
    var actions := Iterate(actionsValue.value);
    if actions.Raised? {
      return Raised;
    }
    r := CollectActions(nodeDeviceId, nodeId, nodeName, nodeType, actions.value);
  }

  /** The loop over the action nodes. */
  method CollectSelectNodes(deviceId: string, data: Json, nodes: seq<Json>) returns (r: Result<seq<SelectSpec>>)
    ensures r == SelectNodeEntities(deviceId, data, nodes)
  {
    ghost var rs := SelectContributions(deviceId, data, nodes);
    var entities: seq<SelectSpec> := [];
    var i := 0;
    while i < |nodes|
      invariant 0 <= i <= |nodes|
      invariant Collect(rs[..i]) == Ok(entities)
    {
      CollectStep(rs, i);
      var contribution := CollectSelectNode(deviceId, data, nodes[i]);
      if contribution.Raised? {
        CollectRaise(rs);
        return Raised;
      }
      entities := entities + contribution.value;
      i := i + 1;
    }
    assert rs[..i] == rs;
    r := Ok(entities);
  }

  /** async_setup_entry of the select platform. */
  method SetupSelects(data: Json) returns (r: Setup<SelectSpec>)
    ensures r == SelectSetup(data)
  {
    var gotMac := SafeGet(data, Path(MacPath));
    var mac := Or(gotMac.value, JStr(UnknownMac));
    if !mac.JStr? {
      return SetupRaised;
    }
    var deviceId := DeviceId(mac.s);
    assert SelectSetup(data) == SelectsWithDevice(deviceId, data);
    var gotNodes := SafeGet(data, Path(ActionNodesPath));
    var iterated := Iterate(gotNodes.value);
    if iterated.Raised? {
      return SetupRaised;
    }
    var collected := CollectSelectNodes(deviceId, data, iterated.value);
    assert SelectsWithDevice(deviceId, data) ==
      (if collected.Raised? then SetupRaised else Added(collected.value));
    if collected.Raised? {
      return SetupRaised;
    }
    r := Added(collected.value);
  }

  // ---------------------------------------------------------------------------
  // The entity
  // ---------------------------------------------------------------------------

  class DucoboxVentilationStateSelectEntity {
    const uniqueId: string
    const nodeId: Json
    const action: string
    /** f"{device_info['name']} Ventilation State". */
    const name: string
    const options: Json
    var currentOption: Option<string>

    /** The current option starts out unknown; nothing reads it back from the
        box. */
    constructor(s: SelectSpec)
      ensures uniqueId == s.uniqueId && nodeId == s.nodeId && options == s.options
      ensures action == VentilationAction
      ensures name == s.nodeName + " Ventilation State"
      ensures currentOption == None
    {
      uniqueId := s.uniqueId;
      nodeId := s.nodeId;
      action := VentilationAction;
      name := s.nodeName + " Ventilation State";
      options := s.options;
      currentOption := None;
    }

    /** async_select_option: the option is kept before the coordinator asks
        the box to change state, and stays when that call raises. Nothing
        checks the option against the options offered. */
    method AsyncSelectOption(option: string, remoteOk: bool) returns (request: ActionRequest, raised: bool)
      modifies this
      ensures currentOption == Some(option)
      ensures request == ActionRequest(action, option, nodeId)
      ensures raised == !remoteOk
    {
      currentOption := Some(option);
      request := ActionRequest(action, option, nodeId);
      raised := !remoteOk;
    }
  }

  // ---------------------------------------------------------------------------
  // Properties
  // ---------------------------------------------------------------------------

  /** Without a MAC address the select platform still sets up, filing its
      entities under the device id "unknown_mac". */
  lemma NoMacUsesUnknownDevice(data: Json)
    requires !Truthy(Walk(data, Path(MacPath)))
    ensures SelectSetup(data) == SelectsWithDevice(UnknownMac, data)
  {
    DeviceIdOfUnknownMac();
  }

  /** Action nodes that cannot be iterated (absent, so None) make setup
      raise whenever the MAC, if present, is a string. */
  lemma MissingActionNodesRaise(data: Json)
    requires MacAddress(data).JStr?
    requires Walk(data, Path(ActionNodesPath)) == JNull
    ensures SelectSetup(data) == SetupRaised
  {
  }

  /** A node without an "Actions" key contributes nothing. */
  lemma NodeWithoutActions(deviceId: string, data: Json, node: Json)
    requires node.JDict? && Has(node.entries, JStr("Node")) && !Has(node.entries, JStr("Actions"))
    requires Hashable(Get(node.entries, JStr("Node")))
    ensures SelectNodeContribution(deviceId, data, node) == Ok([])
  {
    var nodeId := Get(node.entries, JStr("Node"));
    LookupAfterPath(data, TypeTable, nodeId);
    LookupAfterPath(data, NameTable, nodeId);
  }

  /** A node holding two SetVentilationState actions yields two entities
      with one and the same unique id. */
  lemma RepeatedActionRepeatsId(nodeDeviceId: string, nodeId: Json, nodeName: string, nodeType: Json, a1: Json, a2: Json)
    requires IsVentilationAction(a1) && Subscript(a1, "Enum").Ok?
    requires IsVentilationAction(a2) && Subscript(a2, "Enum").Ok?
    ensures var r := ActionEntities(nodeDeviceId, nodeId, nodeName, nodeType, [a1, a2]);
      r.Ok? && |r.value| == 2 && r.value[0].uniqueId == r.value[1].uniqueId
  {
    var id := Dashed(nodeDeviceId, VentilationAction);
    var e1 := SelectSpec(id, nodeId, nodeName, nodeType, Subscript(a1, "Enum").value);
    var e2 := SelectSpec(id, nodeId, nodeName, nodeType, Subscript(a2, "Enum").value);
    assert [a1][..0] == [];
    assert ActionEntities(nodeDeviceId, nodeId, nodeName, nodeType, [a1][..0]) == Ok([]);
    assert Subscript([a1][0], "Action") == Ok(JStr(VentilationAction));
    assert Subscript([a1][0], "Enum") == Ok(e1.options);
    assert [] + [e1] == [e1];
    assert ActionEntities(nodeDeviceId, nodeId, nodeName, nodeType, [a1]) == Ok([e1]);
    assert [a1, a2][..1] == [a1];
    assert [a1, a2][1] == a2;
    assert Subscript([a1, a2][1], "Action") == Ok(JStr(VentilationAction));
    assert Subscript([a1, a2][1], "Enum") == Ok(e2.options);
    assert [e1] + [e2] == [e1, e2];
    assert ActionEntities(nodeDeviceId, nodeId, nodeName, nodeType, [a1, a2]) == Ok([e1, e2]);
  }

  /** Select entities of action nodes with different numeric ids have
      different unique ids. */
  lemma SelectIdsDistinctAcrossNodes(deviceId: string, n1: nat, n2: nat)
    requires n1 != n2
    ensures Dashed(Dashed(deviceId, Show(JInt(n1))), VentilationAction)
         != Dashed(Dashed(deviceId, Show(JInt(n2))), VentilationAction)
  {
    assert '-' !in VentilationAction;
    NodeIdsInjective(deviceId, n1, VentilationAction, n2, VentilationAction);
  }
}
