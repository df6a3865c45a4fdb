/** config_flow.py: how a Ducobox is added, by hand from a base URL or from
    an mDNS (zeroconf) announcement confirmed by the user. */
module ConfigFlow {
  import opened Text
  import opened Json

  /** What a flow step hands back to the host. */
  datatype FlowResult =
    | CreateEntry(title: string, data: map<string, string>)
    | ShowForm(stepId: string, errors: map<string, string>, placeholders: map<string, string>)
    | Abort(reason: string)

  // ---------------------------------------------------------------------------
  // Manual entry
  // ---------------------------------------------------------------------------

  const AcceptedSchemes: set<string> := {"https", "http"}
  const ManualTitle: string := "Ducobox Connectivity Board"

  /** f"{base_url.rstrip('/')}/info": the URL probed before the entry is made. */
  function ProbeUrl(baseUrl: string): (url: string)
    ensures |url| >= 5 && url[|url| - 5..] == "/info"
    ensures StartsWith(baseUrl, url[..|url| - 5])
    ensures forall i :: |url| - 5 <= i < |baseUrl| ==> baseUrl[i] == '/'
    ensures |url| > 5 ==> url[|url| - 6] != '/'
  {
    StripRight(baseUrl, {'/'}) + "/info"
  }

  /** Trailing slashes on the base URL do not change the probe URL. */
  lemma ProbeUrlIgnoresTrailingSlash(baseUrl: string)
    ensures ProbeUrl(baseUrl + "/") == ProbeUrl(baseUrl)
  {
    StripRightAppend(baseUrl, '/', {'/'});
  }

  /** The outcome of async_step_user, and the URL it probed if it got that far. */
  datatype UserStep = UserStep(result: FlowResult, probed: Option<string>)

  /** async_step_user. `scheme` is urlparse(base_url).scheme and `probeOk`
      says whether the GET of the probe URL went through without a
      RequestException. */
  function StepUser(input: Option<map<string, string>>, scheme: string, probeOk: bool): (r: UserStep)
    requires input.Some? ==> "base_url" in input.value
    ensures input.None? ==> r == UserStep(ShowForm("user", map[], map[]), None)
    ensures r.result.CreateEntry? <==> input.Some? && scheme in AcceptedSchemes && probeOk
    ensures r.result.CreateEntry? ==> r.result == CreateEntry(ManualTitle, input.value)
    ensures input.Some? && !r.result.CreateEntry? ==>
      r.result == ShowForm("user", map["base_url" := "cannot_connect"], map[])
    ensures r.probed.Some? <==> input.Some? && scheme in AcceptedSchemes
    ensures r.probed.Some? ==> r.probed.value == ProbeUrl(input.value["base_url"])
  {
    match input
    case None => UserStep(ShowForm("user", map[], map[]), None)
    case Some(userInput) =>
      var failed := ShowForm("user", map["base_url" := "cannot_connect"], map[]);
      if scheme !in AcceptedSchemes then UserStep(failed, None)
      else
        var probe := Some(ProbeUrl(userInput["base_url"]));
        if probeOk then UserStep(CreateEntry(ManualTitle, userInput), probe)
        else UserStep(failed, probe)
  }

  // ---------------------------------------------------------------------------
  // Discovery
  // ---------------------------------------------------------------------------

  const Brackets: set<char> := {'[', ']'}

  /** The name filter: name.lower() starts with "duco_" or "duco ". */
  predicate IsDucoName(name: string)
    ensures IsDucoName(name) ==> |name| >= 5 && name[4] in {'_', ' '}
  {
    StartsWith(Lower(name), "duco_") || StartsWith(Lower(name), "duco ")
  }

  /** The filter ignores case. */
  lemma DucoNameIgnoresCase(name: string)
    ensures IsDucoName(Lower(name)) == IsDucoName(name)
  {
    LowerIdempotent(name);
  }

  /** name.split(" ")[1].strip("[]"), or None where the indexing raises
      IndexError because the name has no space. */
  function DiscoveredUniqueId(name: string): (r: Option<string>)
    ensures r.Some? <==> ' ' in name
    ensures r.Some? ==> ' ' !in r.value
    ensures r.Some? && r.value != [] ==> r.value[0] !in Brackets && r.value[|r.value| - 1] !in Brackets
  {
    SplitHasSecondPiece(name, ' ');
    if ' ' !in name then None
    else
      var piece := Split(name, ' ')[1];
      SplitPiecesAvoidSeparator(name, ' ');
      StripKeepsCharacters(piece, Brackets);
      Some(Strip(piece, Brackets))
  }

  /** The unique id is the text after the first space up to the next one,
      with brackets stripped from both ends. */
  lemma DiscoveredUniqueIdValue(name: string)
    ensures ' ' in name ==>
      var afterSpace := name[|TakeUntil(name, ' ')| + 1..];
      DiscoveredUniqueId(name) == Some(Strip(TakeUntil(afterSpace, ' '), Brackets))
  {
    if ' ' in name {
      SplitSecondPiece(name, ' ');
    }
  }

  /** The usual announcement "<model> [<id>]" yields the id. */
  lemma UniqueIdOfAnnouncement(model: string, id: string)
    requires ' ' !in model && ' ' !in id && '[' !in id && ']' !in id
    ensures DiscoveredUniqueId(model + " [" + id + "]") == Some(id)
  {
    var bracketed := "[" + id + "]";
    assert model + " [" + id + "]" == model + [' '] + bracketed;
    SplitAtFirst(model, ' ', bracketed);
    SplitWithoutSeparator(bracketed, ' ');
    assert bracketed[1..] == id + "]";
    if id == [] {
      assert StripLeft(bracketed, Brackets) == [];
    } else {
      assert StripLeft(id + "]", Brackets) == id + "]";
      StripRightAppend(id, ']', Brackets);
      assert id[|id| - 1] !in Brackets;
    }
  }

  /** A name accepted through its "duco " prefix always has a unique id. */
  lemma SpacedDucoNameHasUniqueId(name: string)
    requires StartsWith(Lower(name), "duco ")
    ensures DiscoveredUniqueId(name).Some?
  {
    assert Lower(name)[4] == ' ';
    assert name[4] == ' ';
  }

  /** A name accepted through "duco_" with no space makes the step raise. */
  lemma UnderscoreNameWithoutSpaceRaises(name: string, addresses: seq<string>)
    requires StartsWith(Lower(name), "duco_") && ' ' !in name
    ensures IsDucoName(name)
    ensures ZeroconfDiscovery(name, addresses) == Raised
  {
  }

  /** What context["discovery"] holds. */
  datatype Discovery = Discovery(host: string, uniqueId: string)

  /** What async_step_zeroconf extracts: None when the name is refused,
      Raised when there is no address (addresses[0]) or no space in the name,
      and otherwise the first address and the unique id. */
  function ZeroconfDiscovery(name: string, addresses: seq<string>): (r: Result<Option<Discovery>>)
    ensures r == Ok(None) <==> !IsDucoName(name)
    ensures r.Ok? && r.value.Some? ==>
      && addresses != [] && r.value.value.host == addresses[0]
      && Some(r.value.value.uniqueId) == DiscoveredUniqueId(name)
    ensures r.Raised? <==> IsDucoName(name) && (addresses == [] || ' ' !in name)
  {
    if !IsDucoName(name) then Ok(None)
    else if addresses == [] then Raised
    else
      match DiscoveredUniqueId(name)
      case None => Raised
      case Some(id) => Ok(Some(Discovery(addresses[0], id)))
  }

  /** The confirmation form, showing host and unique id. */
  function ConfirmForm(d: Discovery): FlowResult
  {
    ShowForm("confirm", map[], map["host" := d.host, "unique_id" := d.uniqueId])
  }

  /** async_step_confirm: context["discovery"] raises KeyError when no
      discovery was stored; on confirmation the entry points at https://host. */
  function ConfirmOutcome(discovery: Option<Discovery>, confirmed: bool): (r: Result<FlowResult>)
    ensures r.Raised? <==> discovery.None?
    ensures r.Ok? && r.value.CreateEntry? <==> discovery.Some? && confirmed
    ensures r.Ok? && r.value.CreateEntry? ==>
      && r.value.data.Keys == {"base_url", "unique_id"}
      && r.value.data["base_url"] == "https://" + discovery.value.host
      && r.value.data["unique_id"] == discovery.value.uniqueId
  {
    match discovery
    case None => Raised
    case Some(d) =>
      if confirmed then
        Ok(CreateEntry("Ducobox (" + d.host + ")",
                       map["base_url" := "https://" + d.host, "unique_id" := d.uniqueId]))
      else Ok(ConfirmForm(d))
  }

  /** The discovery flow: the unique id the flow carries and the discovery
      stored in its context. */
  class DucoboxConfigFlow {
    var flowUniqueId: Option<string>
    var discovery: Option<Discovery>

    constructor()
      ensures flowUniqueId == None && discovery == None
    {
      flowUniqueId := None;
      discovery := None;
    }

    /** async_step_zeroconf. `configured` are the unique ids of the entries
        that already exist; a known id aborts the flow after the flow has
        taken the id. Otherwise the discovery is stored and the
        confirmation form shown. */
    method StepZeroconf(name: string, addresses: seq<string>, configured: set<string>) returns (r: Result<FlowResult>)
      modifies this
      ensures ZeroconfDiscovery(name, addresses) == Ok(None) ==>
        r == Ok(Abort("not_duco_air_device")) && unchanged(this)
      ensures ZeroconfDiscovery(name, addresses) == Raised ==> r == Raised && unchanged(this)
      ensures ZeroconfDiscovery(name, addresses).Ok? && ZeroconfDiscovery(name, addresses).value.Some? ==>
        var d := ZeroconfDiscovery(name, addresses).value.value;
        && flowUniqueId == Some(d.uniqueId)
        && (d.uniqueId in configured ==> r == Ok(Abort("already_configured")) && discovery == old(discovery))
        && (d.uniqueId !in configured ==> r == Ok(ConfirmForm(d)) && discovery == Some(d))
    {
      if !IsDucoName(name) {
        return Ok(Abort("not_duco_air_device"));
      }
      if addresses == [] {
        return Raised;
      }
      var host := addresses[0];
      var id := DiscoveredUniqueId(name);
      if id.None? {
        return Raised;
      }
      flowUniqueId := Some(id.value);
      if id.value in configured {
        return Ok(Abort("already_configured"));
      }
      discovery := Some(Discovery(host, id.value));
      r := StepConfirm(false);
    }

    /** async_step_confirm. */
    method StepConfirm(confirmed: bool) returns (r: Result<FlowResult>)
      ensures r == ConfirmOutcome(discovery, confirmed)
    {
      if discovery.None? {
        return Raised;
      }
      var d := discovery.value;
      if confirmed {
        r := Ok(CreateEntry("Ducobox (" + d.host + ")",
                            map["base_url" := "https://" + d.host, "unique_id" := d.uniqueId]));
      } else {
        r := Ok(ConfirmForm(d));
      }
    }
  }

  /** Discovery then confirmation: the entry made points at the first
      advertised address over https and carries the id from the name. */
  lemma DiscoveredEntry(name: string, addresses: seq<string>)
    requires ZeroconfDiscovery(name, addresses).Ok? && ZeroconfDiscovery(name, addresses).value.Some?
    ensures var d := ZeroconfDiscovery(name, addresses).value.value;
      var r := ConfirmOutcome(Some(d), true);
      && r.Ok? && r.value.CreateEntry?
      && r.value.data["base_url"] == "https://" + addresses[0]
      && Some(r.value.data["unique_id"]) == DiscoveredUniqueId(name)
  {
  }
}
