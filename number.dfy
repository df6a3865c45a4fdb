/** number.py: one number entity per configuration field of a node that
    carries Val, Min, Max and Inc, and the entity whose value the user sets. */
module NumberPlatform {
  import opened Text
  import opened Json
  import opened Utils
  import opened Coordinator
  import opened Entities

  const ConfigNodesPath: seq<string> := ["config_nodes", "Nodes"]

  /** int(v): bools count as 0 and 1, floats are truncated toward zero,
      strings must spell a decimal integer; None, lists and dicts raise. */
  function ToInt(v: Json): (r: Result<int>)
    ensures r.Raised? <==> v.JNull? || v.JList? || v.JDict? || (v.JStr? && ParseDecimal(v.s).None?)
    ensures v.JReal? && 0.0 <= v.r ==> 0 <= r.value && r.value as real <= v.r < r.value as real + 1.0
    ensures v.JReal? && v.r < 0.0 ==> r.value <= 0 && r.value as real - 1.0 < v.r <= r.value as real
  {
    match v
    case JBool(b) => Ok(if b then 1 else 0)
    case JInt(i) => Ok(i)
    case JReal(x) => Ok(Truncate(x))
    case JStr(s) => (match ParseDecimal(s) case Some(n) => Ok(n) case None => Raised)
    case _ => Raised
  }

  /** int() gives back an integer however it is spelled. */
  lemma ToIntOfInteger(n: int)
    ensures ToInt(JInt(n)) == Ok(n)
    ensures ToInt(JReal(n as real)) == Ok(n)
    ensures ToInt(JStr(Decimal(n))) == Ok(n)
  {
    DecimalRoundTrip(n);
  }

  /** A field that becomes a number entity: a dict with Val, Min, Max and Inc. */
  predicate IsNumberField(v: Json)
  {
    && v.JDict?
    && Has(v.entries, JStr("Val")) && Has(v.entries, JStr("Min"))
    && Has(v.entries, JStr("Max")) && Has(v.entries, JStr("Inc"))
  }

  /** The arguments a DucoboxNumberEntity is built from. */
  datatype NumberSpec = NumberSpec(
    uniqueId: string, nodeId: Json, key: Json, nodeName: string, nodeType: Json,
    value: int, minValue: int, maxValue: int, step: int)

  /** int(value[name]) for one of the four keys of a number field. */
  function Component(v: Json, name: string): Result<int>
    requires v.JDict?
  {
    ToInt(Get(v.entries, JStr(name)))
  }

  /** The entity one qualifying field yields, or the exception one of its
      four int() conversions raises. */
  function FieldEntity(nodeDeviceId: string, nodeId: Json, nodeName: string, nodeType: Json, field: Entry): (r: Result<NumberSpec>)
    requires IsNumberField(field.value)
    ensures r.Ok? <==>
      && Component(field.value, "Val").Ok? && Component(field.value, "Min").Ok?
      && Component(field.value, "Max").Ok? && Component(field.value, "Inc").Ok?
    ensures r.Ok? ==>
      && r.value.uniqueId == Dashed(nodeDeviceId, Show(field.key))
      && r.value.key == field.key && r.value.nodeId == nodeId
      && r.value.nodeName == nodeName && r.value.nodeType == nodeType
      && Component(field.value, "Val") == Ok(r.value.value)
      && Component(field.value, "Min") == Ok(r.value.minValue)
      && Component(field.value, "Max") == Ok(r.value.maxValue)
      && Component(field.value, "Inc") == Ok(r.value.step)
  {
    var v := field.value;
    match (Component(v, "Val"), Component(v, "Min"), Component(v, "Max"), Component(v, "Inc"))
    case (Ok(val), Ok(lo), Ok(hi), Ok(inc)) =>
      Ok(NumberSpec(Dashed(nodeDeviceId, Show(field.key)), nodeId, field.key, nodeName, nodeType, val, lo, hi, inc))
    case _ => Raised
  }

  /** The qualifying fields of a node, in the node's order. */
  function NumberFields(fields: seq<Entry>): (r: seq<Entry>)
    ensures |r| <= |fields|
    ensures forall e :: e in r <==> e in fields && IsNumberField(e.value)
    ensures DistinctKeys(fields) ==> DistinctKeys(r)
    decreases |fields|
  {
    if fields == [] then []
    else
      var init, last := fields[..|fields| - 1], fields[|fields| - 1];
      assert fields == init + [last];
      var prev := NumberFields(init);
      assert DistinctKeys(fields) ==> forall e :: e in prev ==> e.key != last.key by {
        if DistinctKeys(fields) {
          DistinctKeysInit(fields);
          HasIndex(init, last.key);
        }
      }
      if IsNumberField(last.value) then prev + [last] else prev
  }

  /** The qualifying fields of a concatenation are those of each part. */
  lemma {:induction false} NumberFieldsAppend(a: seq<Entry>, b: seq<Entry>)
    ensures NumberFields(a + b) == NumberFields(a) + NumberFields(b)
    decreases |b|
  {
    if b == [] {
      assert a + b == a;
    } else {
      var b', last := b[..|b| - 1], b[|b| - 1];
      assert a + b == (a + b') + [last];
      assert b == b' + [last];
      NumberFieldsSnoc(a + b', last);
      NumberFieldsSnoc(b', last);
      NumberFieldsAppend(a, b');
    }
  }

  /** One more field at the end is kept exactly when it qualifies. */
  lemma NumberFieldsSnoc(s: seq<Entry>, e: Entry)
    ensures NumberFields(s + [e]) == NumberFields(s) + if IsNumberField(e.value) then [e] else []
  {
    assert (s + [e])[..|s|] == s;
  }

  /** One field is kept exactly when its value qualifies. */
  lemma NumberFieldsSingle(e: Entry)
    ensures NumberFields([e]) == if IsNumberField(e.value) then [e] else []
  {
    assert [e][..0] == [];
  }

  /** The loop over node.items(): one entity per qualifying field, in order;
      the first failing int() ends setup. */
  function FieldEntities(nodeDeviceId: string, nodeId: Json, nodeName: string, nodeType: Json, fields: seq<Entry>): (r: Result<seq<NumberSpec>>)
    ensures r.Ok? ==> |r.value| == |NumberFields(fields)|
    ensures r.Ok? ==> forall e :: e in r.value ==> e.nodeId == nodeId
    decreases |fields|
  {
    if fields == [] then Ok([])
    else
      var last := fields[|fields| - 1];
      match FieldEntities(nodeDeviceId, nodeId, nodeName, nodeType, fields[..|fields| - 1])
      case Raised => Raised
      case Ok(es) =>
        if !IsNumberField(last.value) then Ok(es)
        else
          match FieldEntity(nodeDeviceId, nodeId, nodeName, nodeType, last)
          case Raised => Raised
          case Ok(e) => Ok(es + [e])
  }

  /** The loop yields one entity per qualifying field, each the one that
      field describes, and raises exactly when some qualifying field fails
      its int() conversions. */
  lemma {:induction false} FieldEntitiesMeaning(nodeDeviceId: string, nodeId: Json, nodeName: string, nodeType: Json, fields: seq<Entry>)
    ensures var r := FieldEntities(nodeDeviceId, nodeId, nodeName, nodeType, fields);
      var nf := NumberFields(fields);
      && (r.Ok? ==> |r.value| == |nf|)
      && (r.Ok? ==> forall j :: 0 <= j < |r.value| ==>
            FieldEntity(nodeDeviceId, nodeId, nodeName, nodeType, nf[j]) == Ok(r.value[j]))
      && (r.Raised? <==>
            exists j :: 0 <= j < |nf| && FieldEntity(nodeDeviceId, nodeId, nodeName, nodeType, nf[j]).Raised?)
    decreases |fields|
  {
    if fields != [] {
      var init, last := fields[..|fields| - 1], fields[|fields| - 1];
      assert fields == init + [last];
      FieldEntitiesMeaning(nodeDeviceId, nodeId, nodeName, nodeType, init);
      var nf, nfInit := NumberFields(fields), NumberFields(init);
      var prev := FieldEntities(nodeDeviceId, nodeId, nodeName, nodeType, init);
      if IsNumberField(last.value) {
        assert nf == nfInit + [last];
        assert forall j :: 0 <= j < |nfInit| ==> nf[j] == nfInit[j];
        if prev.Raised? {
          var j :| 0 <= j < |nfInit| && FieldEntity(nodeDeviceId, nodeId, nodeName, nodeType, nfInit[j]).Raised?;
          assert nf[j] == nfInit[j];
        }
      } else {
        assert nf == nfInit;
      }
    }
  }

  /** What one configuration node contributes. node['Node'] raises unless
      the node is a dict holding "Node"; the two mapping lookups raise on an
      unhashable node id. */
  function NumberNodeContribution(deviceId: string, data: Json, node: Json): (r: Result<seq<NumberSpec>>)
    ensures Subscript(node, "Node").Raised? ==> r.Raised?
    ensures r.Ok? ==>
      var nodeId := Get(node.entries, JStr("Node"));
      && node.JDict? && Has(node.entries, JStr("Node"))
      && FieldEntities(
           Dashed(deviceId, Show(nodeId)), nodeId,
           deviceId + ":" + Show(Walk(data, Path(NameTable) + [nodeId])),
           Or(Walk(data, Path(TypeTable) + [nodeId]), JStr("Unknown")),
           node.entries) == r
  {
    match Subscript(node, "Node")
    case Raised => Raised
    case Ok(nodeId) =>
      match Lookup(data, Path(TypeTable) + [nodeId])
      case Raised => Raised
      case Ok(t) =>
        match Lookup(data, Path(NameTable) + [nodeId])
        case Raised => Raised
        case Ok(mapped) =>
          FieldEntities(Dashed(deviceId, Show(nodeId)), nodeId, deviceId + ":" + Show(mapped), Or(t, JStr("Unknown")), node.entries)
  }

  /** What each node of the list contributes. */
  function NumberContributions(deviceId: string, data: Json, nodes: seq<Json>): (rs: seq<Result<seq<NumberSpec>>>)
    ensures |rs| == |nodes|
    ensures forall i :: 0 <= i < |nodes| ==> rs[i] == NumberNodeContribution(deviceId, data, nodes[i])
  {
    seq(|nodes|, i requires 0 <= i < |nodes| => NumberNodeContribution(deviceId, data, nodes[i]))
  }

  /** The entities of the whole node list, in node order. */
  function NumberNodeEntities(deviceId: string, data: Json, nodes: seq<Json>): Result<seq<NumberSpec>>
  {
    Collect(NumberContributions(deviceId, data, nodes))
  }

  /** The outcome of async_setup_entry for the snapshot `data`. */
  function NumberSetup(data: Json): (r: Setup<NumberSpec>)
    ensures !Truthy(Walk(data, Path(MacPath))) ==> r == ReturnedEarly
    ensures r.Added? ==> Walk(data, Path(MacPath)).JStr?
  {
    var mac := MacAddress(data);
    if mac == JStr(UnknownMac) then ReturnedEarly
    else if !mac.JStr? then SetupRaised
    else NumbersWithDevice(DeviceId(mac.s), data)
  }

  /** The part of setup after the device id is known. */
  function NumbersWithDevice(deviceId: string, data: Json): Setup<NumberSpec>
  {
    match Iterate(Walk(data, Path(ConfigNodesPath)))
    case Raised => SetupRaised
    case Ok(nodes) =>
      match NumberNodeEntities(deviceId, data, nodes)
      case Raised => SetupRaised
      case Ok(es) => Added(es)
  }

  // ---------------------------------------------------------------------------
  // The setup loops
  // ---------------------------------------------------------------------------

  lemma FieldEntitiesStep(nodeDeviceId: string, nodeId: Json, nodeName: string, nodeType: Json, fields: seq<Entry>, i: nat)
    requires i < |fields|
    ensures FieldEntities(nodeDeviceId, nodeId, nodeName, nodeType, fields[..i + 1]) ==
      if !IsNumberField(fields[i].value) then FieldEntities(nodeDeviceId, nodeId, nodeName, nodeType, fields[..i])
      else match FieldEntities(nodeDeviceId, nodeId, nodeName, nodeType, fields[..i])
        case Raised => Raised
        case Ok(es) =>
          match FieldEntity(nodeDeviceId, nodeId, nodeName, nodeType, fields[i])
          case Raised => Raised
          case Ok(e) => Ok(es + [e])
  {
    assert fields[..i + 1][..i] == fields[..i];
  }

  lemma {:induction false} FieldEntitiesRaisedStays(nodeDeviceId: string, nodeId: Json, nodeName: string, nodeType: Json, fields: seq<Entry>, i: nat)
    requires i <= |fields|
    requires FieldEntities(nodeDeviceId, nodeId, nodeName, nodeType, fields[..i]).Raised?
    ensures FieldEntities(nodeDeviceId, nodeId, nodeName, nodeType, fields).Raised?
    decreases |fields| - i
  {
    if i < |fields| {
      FieldEntitiesStep(nodeDeviceId, nodeId, nodeName, nodeType, fields, i);
      FieldEntitiesRaisedStays(nodeDeviceId, nodeId, nodeName, nodeType, fields, i + 1);
    } else {
      assert fields[..i] == fields;
    }
  }

  /** The inner loop over node.items(). */
  method CollectFields(nodeDeviceId: string, nodeId: Json, nodeName: string, nodeType: Json, fields: seq<Entry>)
    returns (r: Result<seq<NumberSpec>>)
    ensures r == FieldEntities(nodeDeviceId, nodeId, nodeName, nodeType, fields)
  {
    var entities: seq<NumberSpec> := [];
    var i := 0;
    while i < |fields|
      invariant 0 <= i <= |fields|
      invariant FieldEntities(nodeDeviceId, nodeId, nodeName, nodeType, fields[..i]) == Ok(entities)
    {
      FieldEntitiesStep(nodeDeviceId, nodeId, nodeName, nodeType, fields, i);
      var key, value := fields[i].key, fields[i].value;
      if IsNumberField(value) {
        var val := ToInt(Get(value.entries, JStr("Val")));
        var lo := ToInt(Get(value.entries, JStr("Min")));
        var hi := ToInt(Get(value.entries, JStr("Max")));
        var inc := ToInt(Get(value.entries, JStr("Inc")));
        if val.Raised? || lo.Raised? || hi.Raised? || inc.Raised? {
          FieldEntitiesRaisedStays(nodeDeviceId, nodeId, nodeName, nodeType, fields, i + 1);
          return Raised;
        }
        entities := entities + [NumberSpec(Dashed(nodeDeviceId, Show(key)), nodeId, key, nodeName, nodeType,
                                           val.value, lo.value, hi.value, inc.value)];
      }
      i := i + 1;
    }
    assert fields[..i] == fields;
    r := Ok(entities);
  }

  /** One pass of the loop over the configuration nodes. */
  method CollectNumberNode(deviceId: string, data: Json, node: Json) returns (r: Result<seq<NumberSpec>>)
    ensures r == NumberNodeContribution(deviceId, data, node)
  {
    var subscripted := Subscript(node, "Node");
    if subscripted.Raised? {
      return Raised;
    }
    var nodeId := subscripted.value;
    var typeGot := SafeGet(data, Path(TypeTable) + [nodeId]);
    if typeGot.Raised? {
      return Raised;
    }
    var nodeType := Or(typeGot.value, JStr("Unknown"));
    var nameGot := SafeGet(data, Path(NameTable) + [nodeId]);
    if nameGot.Raised? {
      return Raised;
    }
    var nodeName := deviceId + ":" + Show(nameGot.value);
    var nodeDeviceId := Dashed(deviceId, Show(nodeId));
    r := CollectFields(nodeDeviceId, nodeId, nodeName, nodeType, node.entries);
  }

  /** The loop over the configuration nodes. */
  method CollectNumberNodes(deviceId: string, data: Json, nodes: seq<Json>) returns (r: Result<seq<NumberSpec>>)
    ensures r == NumberNodeEntities(deviceId, data, nodes)
  {
    ghost var rs := NumberContributions(deviceId, data, nodes);
    var entities: seq<NumberSpec> := [];
    var i := 0;
    while i < |nodes|
      invariant 0 <= i <= |nodes|
      invariant Collect(rs[..i]) == Ok(entities)
    {
      CollectStep(rs, i);
      var contribution := CollectNumberNode(deviceId, data, nodes[i]);
      if contribution.Raised? {
        CollectRaise(rs);
        return Raised;
      }
      entities := entities + contribution.value;
      i := i + 1;
    }
    assert rs[..i] == rs;
    r := Ok(entities);
  }

  /** async_setup_entry of the number platform. */
  method SetupNumbers(data: Json) returns (r: Setup<NumberSpec>)
    ensures r == NumberSetup(data)
  {
    var gotMac := SafeGet(data, Path(MacPath));
    var mac := Or(gotMac.value, JStr(UnknownMac));
    if mac == JStr(UnknownMac) {
      return ReturnedEarly;
    }
    if !mac.JStr? {
      return SetupRaised;
    }
    var deviceId := DeviceId(mac.s);
    assert NumberSetup(data) == NumbersWithDevice(deviceId, data);
    var gotNodes := SafeGet(data, Path(ConfigNodesPath));
    var iterated := Iterate(gotNodes.value);
    if iterated.Raised? {
      return SetupRaised;
    }
    var collected := CollectNumberNodes(deviceId, data, iterated.value);
    if collected.Raised? {
      return SetupRaised;
    }
    r := Added(collected.value);
  }

  // ---------------------------------------------------------------------------
  // The entity
  // ---------------------------------------------------------------------------

  class DucoboxNumberEntity {
    const uniqueId: string
    const nodeId: Json
    const key: Json
    /** f"{device_info['name']} {description}". */
    const name: string
    const minValue: int
    const maxValue: int
    const step: int
    var nativeValue: real

    constructor(s: NumberSpec)
      ensures uniqueId == s.uniqueId && nodeId == s.nodeId && key == s.key
      ensures name == s.nodeName + " " + Show(s.key)
      ensures minValue == s.minValue && maxValue == s.maxValue && step == s.step
      ensures nativeValue == s.value as real
    {
      uniqueId := s.uniqueId;
      nodeId := s.nodeId;
      key := s.key;
      name := s.nodeName + " " + Show(s.key);
      minValue := s.minValue;
      maxValue := s.maxValue;
      step := s.step;
      nativeValue := s.value as real;
    }

    /** async_set_native_value: the new value is kept before the coordinator
        sends the PATCH, and stays when the request raises. Nothing checks the
        value against minValue, maxValue or step. */
    method AsyncSetNativeValue(value: real, remoteOk: bool) returns (request: PatchRequest, raised: bool)
      modifies this
      ensures nativeValue == value
      ensures request == SetValueRequest(nodeId, Show(key), value)
      ensures raised == !remoteOk
    {
      nativeValue := value;
      request := SetValueRequest(nodeId, Show(key), value);
      raised := !remoteOk;
    }
  }

  // ---------------------------------------------------------------------------
  // Properties
  // ---------------------------------------------------------------------------

  /** Without a MAC address setup returns and adds nothing. */
  lemma NoMacNoNumbers(data: Json)
    requires !Truthy(Walk(data, Path(MacPath)))
    ensures NumberSetup(data) == ReturnedEarly
  {
  }

  /** Configuration nodes that cannot be iterated (absent, so None) make
      setup raise once the MAC is there. */
  lemma MissingConfigNodesRaise(data: Json)
    requires Walk(data, Path(MacPath)).JStr? && Walk(data, Path(MacPath)).s != "" && Walk(data, Path(MacPath)).s != UnknownMac
    requires Walk(data, Path(ConfigNodesPath)) == JNull
    ensures NumberSetup(data) == SetupRaised
  {
  }

  /** A node id that is a list or dict raises as soon as the snapshot holds a
      type map to look it up in. */
  lemma UnhashableNodeIdRaises(deviceId: string, data: Json, node: Json)
    requires node.JDict? && Has(node.entries, JStr("Node")) && !Hashable(Get(node.entries, JStr("Node")))
    requires Walk(data, Path(TypeTable)).JDict?
    ensures NumberNodeContribution(deviceId, data, node).Raised?
  {
    LookupAfterPath(data, TypeTable, Get(node.entries, JStr("Node")));
  }

  /** With a hashable node id, a node contributes exactly what its fields
      yield, named after the snapshot's node-id maps. */
  lemma HashableNodeContribution(deviceId: string, data: Json, node: Json)
    requires node.JDict? && Has(node.entries, JStr("Node")) && Hashable(Get(node.entries, JStr("Node")))
    ensures var nodeId := Get(node.entries, JStr("Node"));
      NumberNodeContribution(deviceId, data, node) == FieldEntities(
        Dashed(deviceId, Show(nodeId)), nodeId,
        deviceId + ":" + Show(Walk(data, Path(NameTable) + [nodeId])),
        Or(Walk(data, Path(TypeTable) + [nodeId]), JStr("Unknown")),
        node.entries)
  {
    var nodeId := Get(node.entries, JStr("Node"));
    LookupAfterPath(data, TypeTable, nodeId);
    LookupAfterPath(data, NameTable, nodeId);
  }

  /** Within a node whose field names are distinct strings the unique ids of
      its number entities are pairwise distinct. */
  lemma NumberIdsDistinctWithinNode(nodeDeviceId: string, nodeId: Json, nodeName: string, nodeType: Json, fields: seq<Entry>)
    requires DistinctKeys(fields)
    requires forall i :: 0 <= i < |fields| ==> fields[i].key.JStr?
    requires FieldEntities(nodeDeviceId, nodeId, nodeName, nodeType, fields).Ok?
    ensures var es := FieldEntities(nodeDeviceId, nodeId, nodeName, nodeType, fields).value;
      forall i, j :: 0 <= i < j < |es| ==> es[i].uniqueId != es[j].uniqueId
  {
    var es := FieldEntities(nodeDeviceId, nodeId, nodeName, nodeType, fields).value;
    var nf := NumberFields(fields);
    FieldEntitiesMeaning(nodeDeviceId, nodeId, nodeName, nodeType, fields);
    forall i, j | 0 <= i < j < |es| ensures es[i].uniqueId != es[j].uniqueId {
      assert FieldEntity(nodeDeviceId, nodeId, nodeName, nodeType, nf[i]) == Ok(es[i]);
      assert FieldEntity(nodeDeviceId, nodeId, nodeName, nodeType, nf[j]) == Ok(es[j]);
      assert nf[i] in fields && nf[j] in fields;
      assert nf[i].key != nf[j].key;
      GlobalIdsInjective(nodeDeviceId, Show(nf[i].key), Show(nf[j].key));
    }
  }
}
