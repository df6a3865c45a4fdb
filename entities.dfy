/** What the sensor, number and select platforms share: how async_setup_entry
    ends, the device id derived from the box's MAC address, the box model
    string, and the shape of unique ids. */
module Entities {
  import opened Text
  import opened Json
  import opened Utils
  import opened Coordinator

  /** How an async_setup_entry ends: it returns before adding anything, it
      adds the entities it collected, or an exception escapes it. */
  datatype Setup<E> = ReturnedEarly | Added(entities: seq<E>) | SetupRaised

  const MacPath: seq<string> := ["info", "General", "Lan", "Mac", "Val"]
  const BoxNamePath: seq<string> := ["info", "General", "Board", "BoxName", "Val"]
  const BoxSubTypePath: seq<string> := ["info", "General", "Board", "BoxSubTypeName", "Val"]
  const UnknownMac: string := "unknown_mac"
  /** Where the coordinator's snapshot keeps its node-id maps. */
  const NameTable: seq<string> := ["mappings", "node_id_to_name"]
  const TypeTable: seq<string> := ["mappings", "node_id_to_type"]

  /** safe_get(data, "info", "General", "Lan", "Mac", "Val") or "unknown_mac". */
  function MacAddress(data: Json): (mac: Json)
    ensures Truthy(mac)
    ensures !Truthy(Walk(data, Path(MacPath))) ==> mac == JStr(UnknownMac)
    ensures Truthy(Walk(data, Path(MacPath))) ==> mac == Walk(data, Path(MacPath))
  {
    Or(Walk(data, Path(MacPath)), JStr(UnknownMac))
  }

  /** mac.replace(":", "").lower(). */
  function DeviceId(mac: string): (id: string)
    ensures ':' !in id
    ensures forall i :: 0 <= i < |id| ==> !IsUpper(id[i])
    ensures |id| <= |mac|
  {
    Lower(RemoveChar(mac, ':'))
  }

  /** A device id is already in normal form. */
  lemma DeviceIdIdempotent(mac: string)
    ensures DeviceId(DeviceId(mac)) == DeviceId(mac)
  {
    var id := DeviceId(mac);
    RemoveCharAbsent(id, ':');
    LowerIdempotent(RemoveChar(mac, ':'));
  }

  /** The device id is built character by character: a colon is dropped,
      any other character is lowered ... */
  lemma DeviceIdChar(ch: char)
    ensures DeviceId([ch]) == if ch == ':' then [] else [LowerChar(ch)]
  {
    RemoveCharSingle(ch, ':');
  }

  /** ... and the pieces are concatenated in order. */
  lemma DeviceIdAppend(a: string, b: string)
    ensures DeviceId(a + b) == DeviceId(a) + DeviceId(b)
  {
    RemoveCharAppend(a, b, ':');
    LowerAppend(RemoveChar(a, ':'), RemoveChar(b, ':'));
  }

  /** The fallback MAC is its own device id: the select platform, which
      does not stop on a missing MAC, files its entities under
      "unknown_mac". */
  lemma DeviceIdOfUnknownMac()
    ensures DeviceId(UnknownMac) == UnknownMac
  {
    var u := UnknownMac;
    assert u == ['u', 'n', 'k', 'n', 'o', 'w', 'n', '_', 'm', 'a', 'c'];
    assert forall i :: 0 <= i < |u| ==> u[i] != ':' && !IsUpper(u[i]);
    RemoveCharAbsent(u, ':');
    LowerOfLowerCase(u);
  }

  /** f"{box_name} {box_subtype}".replace('_', ' ').strip() with box_name
      defaulting to "Unknown Model" and box_subtype to "". */
  function BoxModel(data: Json): (r: string)
    ensures '_' !in r
    ensures r != [] ==> r[0] !in Whitespace && r[|r| - 1] !in Whitespace
  {
    var name := Or(Walk(data, Path(BoxNamePath)), JStr("Unknown Model"));
    var subType := Or(Walk(data, Path(BoxSubTypePath)), JStr(""));
    var replaced := ReplaceChar(Show(name) + " " + Show(subType), '_', ' ');
    ReplaceCharRemoves(Show(name) + " " + Show(subType), '_', ' ');
    StripKeepsCharacters(replaced, Whitespace);
    Strip(replaced, Whitespace)
  }

  /** The box model has no underscore and no whitespace at either end. */
  lemma BoxModelShape(data: Json)
    ensures '_' !in BoxModel(data)
    ensures BoxModel(data) != [] ==> BoxModel(data)[0] !in Whitespace && BoxModel(data)[|BoxModel(data)| - 1] !in Whitespace
  {
    var name := Or(Walk(data, Path(BoxNamePath)), JStr("Unknown Model"));
    var subType := Or(Walk(data, Path(BoxSubTypePath)), JStr(""));
    var replaced := ReplaceChar(Show(name) + " " + Show(subType), '_', ' ');
    ReplaceCharRemoves(Show(name) + " " + Show(subType), '_', ' ');
    StripKeepsCharacters(replaced, Whitespace);
  }

  /** With neither a box name nor a subtype the model reads "Unknown Model". */
  lemma BoxModelDefaults(data: Json)
    ensures !Truthy(Walk(data, Path(BoxNamePath))) && !Truthy(Walk(data, Path(BoxSubTypePath))) ==>
      BoxModel(data) == "Unknown Model"
  {
    var m := "Unknown Model";
    assert m + " " + "" == m + " ";
    assert forall i :: 0 <= i < |m| ==> m[i] != '_';
    assert ReplaceChar(m + " ", '_', ' ') == m + " ";
    StripOfTrimmed([], m, " ", Whitespace);
    assert [] + m + " " == m + " ";
  }

  /** The ends of a name that survive the underscore replacement and the
      strip unchanged. */
  predicate CleanEnds(n: string)
  {
    n != [] ==> n[0] !in Whitespace + {'_'} && n[|n| - 1] !in Whitespace + {'_'}
  }

  /** With a box name and a subtype given as text, the model is the name,
      a space and the subtype, underscores turned into spaces; with an empty
      subtype it is the name alone. */
  lemma {:induction false} BoxModelOfNames(data: Json, n: string, t: string)
    requires Walk(data, Path(BoxNamePath)) == JStr(n) && n != []
    requires Walk(data, Path(BoxSubTypePath)) == JStr(t)
    requires CleanEnds(n) && CleanEnds(t)
    ensures t == [] ==> BoxModel(data) == ReplaceChar(n, '_', ' ')
    ensures t != [] ==> BoxModel(data) == ReplaceChar(n, '_', ' ') + " " + ReplaceChar(t, '_', ' ')
  {
    var m := ReplaceChar(n, '_', ' ');
    var m2 := ReplaceChar(t, '_', ' ');
    var name := Or(Walk(data, Path(BoxNamePath)), JStr("Unknown Model"));
    var subType := Or(Walk(data, Path(BoxSubTypePath)), JStr(""));
    assert Show(name) == n;
    assert Show(subType) == t;
    ReplaceAroundSpace(n, t);
    StripNames(m, m2);
  }

  /** Replacing underscores in "<n> <t>" replaces them in each name. */
  lemma {:induction false} ReplaceAroundSpace(n: string, t: string)
    ensures ReplaceChar(n + " " + t, '_', ' ') == ReplaceChar(n, '_', ' ') + " " + ReplaceChar(t, '_', ' ')
  {
    ReplaceCharAppend(n + " ", t, '_', ' ');
    ReplaceCharAppend(n, " ", '_', ' ');
    assert ReplaceChar(" ", '_', ' ') == " ";
  }

  /** Stripping "<m> <m2>" where both parts have clean ends. */
  lemma {:induction false} StripNames(m: string, m2: string)
    requires m != [] && m[0] !in Whitespace && m[|m| - 1] !in Whitespace
    requires m2 != [] ==> m2[0] !in Whitespace && m2[|m2| - 1] !in Whitespace
    ensures m2 == [] ==> Strip(m + " " + m2, Whitespace) == m
    ensures m2 != [] ==> Strip(m + " " + m2, Whitespace) == m + " " + m2
  {
    if m2 == [] {
      assert m + " " + m2 == [] + m + " ";
      StripOfTrimmed([], m, " ", Whitespace);
    } else {
      var mid := m + " " + m2;
      assert mid[0] == m[0] && mid[|mid| - 1] == m2[|m2| - 1];
      assert mid == [] + mid + [];
      StripOfTrimmed([], mid, [], Whitespace);
    }
  }

  // ---------------------------------------------------------------------------
  // The loop over nodes
  // ---------------------------------------------------------------------------

  /** What a loop over nodes collects from their contributions, in order:
      the first contribution that raises ends setup, otherwise the entities
      are concatenated. */
  function Collect<E>(rs: seq<Result<seq<E>>>): Result<seq<E>>
    decreases |rs|
  {
    if rs == [] then Ok([])
    else
      match Collect(rs[..|rs| - 1])
      case Raised => Raised
      case Ok(prev) =>
        match rs[|rs| - 1]
        case Raised => Raised
        case Ok(es) => Ok(prev + es)
  }

  /** One more pass of the loop. */
  lemma CollectStep<E>(rs: seq<Result<seq<E>>>, i: nat)
    requires i < |rs|
    ensures Collect(rs[..i + 1]) ==
      match Collect(rs[..i])
      case Raised => Raised
      case Ok(prev) =>
        match rs[i]
        case Raised => Raised
        case Ok(es) => Ok(prev + es)
  {
    assert rs[..i + 1][..i] == rs[..i];
  }

  /** The loop raises exactly when one of the contributions does. */
  lemma {:induction false} CollectRaise<E>(rs: seq<Result<seq<E>>>)
    ensures Collect(rs).Raised? <==> exists i :: 0 <= i < |rs| && rs[i].Raised?
    decreases |rs|
  {
    if rs != [] {
      var init := rs[..|rs| - 1];
      CollectRaise(init);
      if exists i :: 0 <= i < |init| && init[i].Raised? {
        var i :| 0 <= i < |init| && init[i].Raised?;
        assert rs[i] == init[i];
      }
      if exists i :: 0 <= i < |rs| && rs[i].Raised? {
        var i :| 0 <= i < |rs| && rs[i].Raised?;
        if i < |init| {
          assert init[i] == rs[i];
        }
      }
    }
  }

  /** Entities of earlier nodes come first: what a prefix of the loop
      collects is a prefix of what the whole loop collects. */
  lemma {:induction false} CollectOrder<E>(rs: seq<Result<seq<E>>>, i: nat)
    requires i <= |rs|
    requires Collect(rs).Ok?
    ensures Collect(rs[..i]).Ok?
    ensures Collect(rs[..i]).value <= Collect(rs).value
    decreases |rs| - i
  {
    if i == |rs| {
      assert rs[..i] == rs;
    } else {
      CollectStep(rs, i);
      CollectOrder(rs, i + 1);
    }
  }

  // ---------------------------------------------------------------------------
  // Unique ids
  // ---------------------------------------------------------------------------

  /** f"{prefix}-{part}": how every unique id and node device id is formed. */
  function Dashed(prefix: string, part: string): (s: string)
    ensures |s| == |prefix| + 1 + |part|
  {
    prefix + "-" + part
  }

  /** Parts without '-' before a '-' are told apart. */
  lemma SplitAtFirstDash(a: string, b: string, c: string, d: string)
    requires '-' !in a && '-' !in c
    requires a + "-" + b == c + "-" + d
    ensures a == c && b == d
  {
    TakeUntilPrefix(a, '-', b);
    TakeUntilPrefix(c, '-', d);
    var s := a + "-" + b;
    assert b == s[|a| + 1..] == d;
  }

  /** Global ids f"{device_id}-{key}" with '-'-free keys are distinct exactly
      when the keys are. */
  lemma GlobalIdsInjective(deviceId: string, k1: string, k2: string)
    ensures Dashed(deviceId, k1) == Dashed(deviceId, k2) ==> k1 == k2
  {
    assert Dashed(deviceId, k1)[|deviceId| + 1..] == k1;
    assert Dashed(deviceId, k2)[|deviceId| + 1..] == k2;
  }

  /** Node ids f"{device_id}-{node_id}-{key}" with numeric node ids and
      '-'-free keys name one (node, key) pair each, and never collide with a
      global id f"{device_id}-{key}" whose key has no '-'. */
  lemma NodeIdsInjective(deviceId: string, n1: nat, k1: string, n2: nat, k2: string)
    requires '-' !in k1 && '-' !in k2
    ensures Dashed(Dashed(deviceId, Decimal(n1)), k1) == Dashed(Dashed(deviceId, Decimal(n2)), k2) ==> n1 == n2 && k1 == k2
    ensures Dashed(Dashed(deviceId, Decimal(n1)), k1) != Dashed(deviceId, k2)
  {
    DecimalOfNatHasNoSign(n1);
    DecimalOfNatHasNoSign(n2);
    var s1 := Dashed(Dashed(deviceId, Decimal(n1)), k1);
    var tail1 := Decimal(n1) + "-" + k1;
    assert s1 == deviceId + "-" + tail1;
    if s1 == Dashed(Dashed(deviceId, Decimal(n2)), k2) {
      var tail2 := Decimal(n2) + "-" + k2;
      assert tail1 == s1[|deviceId| + 1..] == tail2;
      SplitAtFirstDash(Decimal(n1), k1, Decimal(n2), k2);
      DecimalInjective(n1, n2);
    }
    var s2 := Dashed(deviceId, k2);
    assert s1[|deviceId| + 1..] == tail1;
    assert tail1[|Decimal(n1)|] == '-';
    assert s2[|deviceId| + 1..] == k2;
    assert tail1 != k2;
  }

  // ---------------------------------------------------------------------------
  // Node names from the coordinator's mappings
  // ---------------------------------------------------------------------------

  /** Walking to a node id through a dict whose mappings are the
      coordinator's reads the two maps. */
  lemma WalkMappings(data: seq<Entry>, nodes: seq<seq<Entry>>, id: Json)
    requires Get(data, JStr("mappings")) == Mappings(nodes)
    ensures Walk(JDict(data), Path(TypeTable) + [id]) == Get(TypeMap(nodes), id)
    ensures Walk(JDict(data), Path(NameTable) + [id]) == Get(NameMap(nodes), id)
  {
    var m := Mappings(nodes).entries;
    assert Get(m, JStr("node_id_to_type")) == JDict(TypeMap(nodes));
    assert Get(m, JStr("node_id_to_name")) == JDict(NameMap(nodes));
    var tp := Path(TypeTable) + [id];
    var np := Path(NameTable) + [id];
    assert tp[0] == np[0] == JStr("mappings");
    assert tp[1] == JStr("node_id_to_type") && np[1] == JStr("node_id_to_name");
    assert tp[2] == id && np[2] == id && |tp| == |np| == 3;
    assert tp[1..][1..] == [id] && np[1..][1..] == [id];
    calc {
      Walk(JDict(data), np);
      Walk(Mappings(nodes), np[1..]);
      Walk(JDict(NameMap(nodes)), [id]);
      { assert [id][1..] == []; }
      Get(NameMap(nodes), id);
    }
    calc {
      Walk(JDict(data), tp);
      Walk(Mappings(nodes), tp[1..]);
      Walk(JDict(TypeMap(nodes)), [id]);
      { assert [id][1..] == []; }
      Get(TypeMap(nodes), id);
    }
  }

  /** The snapshot's mappings are the two maps built from /info/nodes. */
  lemma SnapshotMappings(actionNodes: Json, replies: PollReplies)
    requires FetchSpec(true, Some(FetchOnceData(actionNodes)), replies).Ok?
    ensures Get(FetchSpec(true, Some(FetchOnceData(actionNodes)), replies).value, JStr("mappings"))
         == Mappings(NodesOf(replies.nodes.value))
  {
    SnapshotContents(FetchOnceData(actionNodes), replies, JStr("mappings"));
  }

  /** In a snapshot the coordinator built, looking a node's id up in the
      mappings gives back the type and the name derived from the last node of
      /info/nodes with that id. So a number or select entity of that node,
      named f"{device_id}:{mapped_node_name}", carries the name the node's
      sensors get, f"{device_id}:{node_id}:{node_type}". */
  lemma MappedNode(actionNodes: Json, replies: PollReplies, i: nat)
    requires FetchSpec(true, Some(FetchOnceData(actionNodes)), replies).Ok?
    requires i < |NodesOf(replies.nodes.value)|
    requires var nodes := NodesOf(replies.nodes.value);
      forall j :: i < j < |nodes| ==> NodeId(nodes[j]) != NodeId(nodes[i])
    ensures var nodes := NodesOf(replies.nodes.value);
      var data := JDict(FetchSpec(true, Some(FetchOnceData(actionNodes)), replies).value);
      var id := NodeId(nodes[i]);
      && Walk(data, Path(TypeTable) + [id]) == NodeType(nodes[i])
      && Walk(data, Path(NameTable) + [id]) == JStr(NodeName(id, NodeType(nodes[i])))
  {
    var nodes := NodesOf(replies.nodes.value);
    SnapshotMappings(actionNodes, replies);
    WalkMappings(FetchSpec(true, Some(FetchOnceData(actionNodes)), replies).value, nodes, NodeId(nodes[i]));
    MappingLastWins(nodes, i);
  }
}
