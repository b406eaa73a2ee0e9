/**
 The response mapper of the Rewards `/v1/parameters` endpoint
 (GetParameters::MapResponse and GetParameters::ValueToWalletProviderRegions).

 The mapper is a fixed chain of checks over the decoded response body; each
 check either ends the mapping with an error or fills one more field of a
 fresh RewardsParameters record. `Parse` states the whole outcome at once;
 `MapResponse` does the work step by step, as the source does, and is proved
 to agree with it.
 */
module GetParameters {
  import opened Wrappers
  import opened Json

  datatype Error = UnexpectedStatusCode | FailedToParseBody

  /**
   The part of mojom::UrlResponse the mapper reads. The body is held already
   decoded: None stands for a body that is not valid JSON.
   */
  datatype UrlResponse = UrlResponse(statusCode: int, body: Option<Value>)

  /** base::Time, opaque: a count of microseconds. */
  datatype Time = Time(microseconds: int)

  /** mojom::Regions: the allowed and the blocked region codes of one wallet provider. */
  datatype Regions = Regions(allow: seq<string>, block: seq<string>)

  type ProviderRegionsMap = map<string, Regions>

  /**
   mojom::RewardsParameters. The three optional fields are None when the
   response leaves them at the record's default.
   */
  datatype RewardsParameters = RewardsParameters(
    rate: Number,
    autoContributeChoice: Number,
    autoContributeChoices: seq<Number>,
    tipChoices: seq<Number>,
    monthlyTipChoices: seq<Number>,
    payoutStatus: map<string, string>,
    walletProviderRegions: ProviderRegionsMap,
    vbatDeadline: Option<Time>,
    vbatExpired: Option<bool>,
    tosVersion: Option<int32>)

  /** A freshly allocated RewardsParameters: zero scalars, empty collections, defaults elsewhere. */
  function NewParameters(): RewardsParameters {
    RewardsParameters(DoubleNumber(0), DoubleNumber(0), [], [], [], map[], map[], None, None, None)
  }

  // Keys and dotted paths the mapper reads.
  const BatRate := "batRate"
  const AutoContributeDefaultChoice := ["autocontribute", "defaultChoice"]
  const AutoContributeChoices := ["autocontribute", "choices"]
  const DefaultTipChoices := ["tips", "defaultTipChoices"]
  const DefaultMonthlyChoices := ["tips", "defaultMonthlyChoices"]
  const PayoutStatus := "payoutStatus"
  const CustodianRegions := "custodianRegions"
  const VbatDeadline := "vbatDeadline"
  const VbatExpired := "vbatExpired"
  const TosVersion := "tosVersion"
  const Allow := "allow"
  const Block := "block"

  /** URLLoader::IsSuccessCode: a 2xx HTTP status. */
  predicate IsSuccessCode(statusCode: int) {
    200 <= statusCode < 300
  }

  // ---------------------------------------------------------------------
  // Specification

  /** The `get_list` helper: the string elements of list `name`, or nothing if there is no such list. */
  function GetList(name: string, regions: map<string, Value>): seq<string> {
    match FindList(regions, name)
    case Some(list) => Collect(list, GetIfString)
    case None => []
  }

  function RegionsOf(regions: map<string, Value>): Regions {
    Regions(GetList(Allow, regions), GetList(Block, regions))
  }

  /** What ValueToWalletProviderRegions returns for `value`. */
  function WalletProviderRegions(value: Value): Option<ProviderRegionsMap> {
    match GetIfDict(value)
    case None => None
    case Some(d) => Some(map provider | provider in d && d[provider].Dict? :: RegionsOf(d[provider].entries))
  }

  /** The entries of `d` whose value is a string. */
  function StringEntries(d: map<string, Value>): map<string, string> {
    map k | k in d && d[k].Str? :: d[k].s
  }

  predicate IsNonEmptyList(list: Option<seq<Value>>) {
    list.Some? && |list.value| > 0
  }

  /** Everything a body dictionary must hold for the mapping to succeed. */
  predicate HasRequiredFields(d: map<string, Value>) {
    && FindDouble(d, BatRate).Some?
    && FindDoubleByDottedPath(d, AutoContributeDefaultChoice).Some?
    && IsNonEmptyList(FindListByDottedPath(d, AutoContributeChoices))
    && IsNonEmptyList(FindListByDottedPath(d, DefaultTipChoices))
    && IsNonEmptyList(FindListByDottedPath(d, DefaultMonthlyChoices))
    && FindDict(d, PayoutStatus).Some?
    && CustodianRegions in d
    && WalletProviderRegions(d[CustodianRegions]).Some?
  }

  function VbatDeadlineOf(d: map<string, Value>, fromUtcString: string -> Option<Time>): Option<Time> {
    match FindString(d, VbatDeadline)
    case Some(s) => fromUtcString(s)
    case None => None
  }

  /** The record a dictionary with all required fields maps to. */
  function Extract(d: map<string, Value>, fromUtcString: string -> Option<Time>): RewardsParameters
    requires HasRequiredFields(d)
  {
    RewardsParameters(
      FindDouble(d, BatRate).value,
      FindDoubleByDottedPath(d, AutoContributeDefaultChoice).value,
      Collect(FindListByDottedPath(d, AutoContributeChoices).value, GetIfDouble),
      Collect(FindListByDottedPath(d, DefaultTipChoices).value, GetIfDouble),
      Collect(FindListByDottedPath(d, DefaultMonthlyChoices).value, GetIfDouble),
      StringEntries(FindDict(d, PayoutStatus).value),
      WalletProviderRegions(d[CustodianRegions]).value,
      VbatDeadlineOf(d, fromUtcString),
      FindBool(d, VbatExpired),
      FindInt(d, TosVersion))
  }

  /**
   The outcome of mapping `response`. `fromUtcString` stands for
   base::Time::FromUTCString.
   */
  function Parse(response: UrlResponse, fromUtcString: string -> Option<Time>): Result<RewardsParameters, Error> {
    if !IsSuccessCode(response.statusCode) then Failure(UnexpectedStatusCode)
    else if response.body.None? || !response.body.value.Dict? then Failure(FailedToParseBody)
    else if !HasRequiredFields(response.body.value.entries) then Failure(FailedToParseBody)
    else Success(Extract(response.body.value.entries, fromUtcString))
  }

  // ---------------------------------------------------------------------
  // Implementation

  /** The loop that pushes every int or double element of a choice list. */
  method CollectChoices(list: seq<Value>) returns (choices: seq<Number>)
    ensures choices == Collect(list, GetIfDouble)
  {
    choices := [];
    var i := 0;
    while i < |list|
      invariant 0 <= i <= |list|
      invariant choices == Collect(list[..i], GetIfDouble)
    {
      var choice := list[i];
      if choice.Double? || choice.Int? {
        choices := choices + [GetIfDouble(choice).value];
      }
      assert list[..i + 1] == list[..i] + [choice];
      CollectSnoc(list[..i], choice, GetIfDouble);
      i := i + 1;
    }
    assert list[..i] == list;
  }

  /**
   One required choice list: missing or empty fails (the raw list is tested,
   not the filtered one); otherwise its int and double elements.
   */
  method ReadChoiceList(dict: map<string, Value>, path: seq<string>) returns (r: Option<seq<Number>>)
    ensures r.Some? <==> IsNonEmptyList(FindListByDottedPath(dict, path))
    ensures r.Some? ==> r.value == Collect(FindListByDottedPath(dict, path).value, GetIfDouble)
  {
    var list := FindListByDottedPath(dict, path);
    if list.None? || |list.value| == 0 {
      return None;
    }
    var choices := CollectChoices(list.value);
    return Some(choices);
  }

  /** The `get_list` lambda: every string element of list `name` of `regions`. */
  method GetCountries(name: string, regions: map<string, Value>) returns (countries: seq<string>)
    ensures countries == GetList(name, regions)
  {
    countries := [];
    var list := FindList(regions, name);
    if list.Some? {
      var items := list.value;
      var i := 0;
      while i < |items|
        invariant 0 <= i <= |items|
        invariant countries == Collect(items[..i], GetIfString)
      {
        var country := items[i];
        if country.Str? {
          countries := countries + [country.s];
        }
        assert items[..i + 1] == items[..i] + [country];
        CollectSnoc(items[..i], country, GetIfString);
        i := i + 1;
      }
      assert items[..i] == items;
    }
  }

  /** The loop that copies every string entry of the `payoutStatus` dictionary. */
  method CollectPayoutStatus(d: map<string, Value>) returns (status: map<string, string>)
    ensures forall k :: k in status <==> k in d && d[k].Str?
    ensures forall k :: k in status ==> status[k] == d[k].s
  {
    status := map[];
    var rest := d.Keys;
    while rest != {}
      invariant rest <= d.Keys
      invariant forall k :: k in status <==> k in d && k !in rest && d[k].Str?
      invariant forall k :: k in status ==> status[k] == d[k].s
      decreases rest
    {
      var k :| k in rest;
      if d[k].Str? {
        status := status[k := d[k].s];
      }
      rest := rest - {k};
    }
  }

  /**
   GetParameters::ValueToWalletProviderRegions: for a dictionary, the regions
   of every provider whose entry is itself a dictionary; for anything else, none.
   */
  method ValueToWalletProviderRegions(value: Value) returns (r: Option<ProviderRegionsMap>)
    ensures r == WalletProviderRegions(value)
  {
    if !value.Dict? {
      return None;
    }
    var d := value.entries;
    var regionsMap: ProviderRegionsMap := map[];
    var rest := d.Keys;
    while rest != {}
      invariant rest <= d.Keys
      invariant forall p :: p in regionsMap <==> p in d && p !in rest && d[p].Dict?
      invariant forall p :: p in regionsMap ==> regionsMap[p] == RegionsOf(d[p].entries)
      decreases rest
    {
      var provider :| provider in rest;
      var regionsValue := d[provider];
      if regionsValue.Dict? {
        var allow := GetCountries(Allow, regionsValue.entries);
        var block := GetCountries(Block, regionsValue.entries);
        regionsMap := regionsMap[provider := Regions(allow, block)];
      }
      rest := rest - {provider};
    }
    assert regionsMap == WalletProviderRegions(value).value;
    r := Some(regionsMap);
  }

  /**
   The optional fields: each one is set only when present with the right type
   (and, for the deadline, when FromUTCString accepts it); they never fail.
   */
  method ReadOptionalFields(dict: map<string, Value>, fromUtcString: string -> Option<Time>, parameters: RewardsParameters)
    returns (filled: RewardsParameters)
    ensures filled == parameters.(
      vbatDeadline := if VbatDeadlineOf(dict, fromUtcString).Some? then VbatDeadlineOf(dict, fromUtcString) else parameters.vbatDeadline,
      vbatExpired := if FindBool(dict, VbatExpired).Some? then FindBool(dict, VbatExpired) else parameters.vbatExpired,
      tosVersion := if FindInt(dict, TosVersion).Some? then FindInt(dict, TosVersion) else parameters.tosVersion)
  {
    filled := parameters;
    var vbatDeadline := FindString(dict, VbatDeadline);
    if vbatDeadline.Some? {
      var time := fromUtcString(vbatDeadline.value);
      if time.Some? {
        filled := filled.(vbatDeadline := time);
      }
    }

    var vbatExpired := FindBool(dict, VbatExpired);
    if vbatExpired.Some? {
      filled := filled.(vbatExpired := vbatExpired);
    }

    var tosVersion := FindInt(dict, TosVersion);
    if tosVersion.Some? {
      filled := filled.(tosVersion := tosVersion);
    }

  }

  /** GetParameters::MapResponse: the check chain, filling `parameters` field by field. */
  method MapResponse(response: UrlResponse, fromUtcString: string -> Option<Time>)
    returns (r: Result<RewardsParameters, Error>)
    ensures r == Parse(response, fromUtcString)
  {
    if !IsSuccessCode(response.statusCode) {
      return Failure(UnexpectedStatusCode);
    }
    if response.body.None? || !response.body.value.Dict? {
      return Failure(FailedToParseBody);
    }
    var dict := response.body.value.entries;

    var rate := FindDouble(dict, BatRate);
    if rate.None? {
      return Failure(FailedToParseBody);
    }
    var parameters := NewParameters();
    parameters := parameters.(rate := rate.value);

    var autoContributeChoice := FindDoubleByDottedPath(dict, AutoContributeDefaultChoice);
    if autoContributeChoice.None? {
      return Failure(FailedToParseBody);
    }
    parameters := parameters.(autoContributeChoice := autoContributeChoice.value);

    var autoContributeChoices := ReadChoiceList(dict, AutoContributeChoices);
    if autoContributeChoices.None? {
      return Failure(FailedToParseBody);
    }
    parameters := parameters.(autoContributeChoices := parameters.autoContributeChoices + autoContributeChoices.value);

    var tipChoices := ReadChoiceList(dict, DefaultTipChoices);
    if tipChoices.None? {
      return Failure(FailedToParseBody);
    }
    parameters := parameters.(tipChoices := parameters.tipChoices + tipChoices.value);

    var monthlyTipChoices := ReadChoiceList(dict, DefaultMonthlyChoices);
    if monthlyTipChoices.None? {
      return Failure(FailedToParseBody);
    }
    parameters := parameters.(monthlyTipChoices := parameters.monthlyTipChoices + monthlyTipChoices.value);

    var payoutStatus := FindDict(dict, PayoutStatus);
    if payoutStatus.None? {
      return Failure(FailedToParseBody);
    }
    var status := CollectPayoutStatus(payoutStatus.value);
    assert status == StringEntries(payoutStatus.value);
    parameters := parameters.(payoutStatus := status);

    var custodianRegions := Find(dict, CustodianRegions);
    if custodianRegions.None? {
      return Failure(FailedToParseBody);
    }
    var walletProviderRegions := ValueToWalletProviderRegions(custodianRegions.value);
    if walletProviderRegions.None? {
      return Failure(FailedToParseBody);
    }
    parameters := parameters.(walletProviderRegions := walletProviderRegions.value);

    parameters := ReadOptionalFields(dict, fromUtcString, parameters);

    assert HasRequiredFields(dict);
    assert parameters == Extract(dict, fromUtcString);
    return Success(parameters);
  }
}

module GetParametersProperties {
  import opened Wrappers
  import opened Json
  import opened GetParameters

  /** A response with status `statusCode` whose body decodes to the dictionary `d`. */
  function DictResponse(statusCode: int, d: map<string, Value>): UrlResponse {
    UrlResponse(statusCode, Some(Dict(d)))
  }

  /** A non-success status fails with kUnexpectedStatusCode whatever the body holds. */
  lemma NonSuccessStatusIgnoresBody(statusCode: int, body: Option<Value>, fromUtcString: string -> Option<Time>)
    requires !IsSuccessCode(statusCode)
    ensures Parse(UrlResponse(statusCode, body), fromUtcString) == Failure(UnexpectedStatusCode)
  {
  }

  /** A success status with a body that is not JSON, or is JSON but not a dictionary, fails with kFailedToParseBody. */
  lemma BodyNotDictFails(statusCode: int, body: Option<Value>, fromUtcString: string -> Option<Time>)
    requires IsSuccessCode(statusCode)
    requires body.None? || !body.value.Dict?
    ensures Parse(UrlResponse(statusCode, body), fromUtcString) == Failure(FailedToParseBody)
  {
  }

  /** Once the status is a success, every failure is kFailedToParseBody, and success means every required field is there. */
  lemma ParseOutcome(response: UrlResponse, fromUtcString: string -> Option<Time>)
    ensures Parse(response, fromUtcString).Success? <==>
              && IsSuccessCode(response.statusCode)
              && response.body.Some? && response.body.value.Dict?
              && HasRequiredFields(response.body.value.entries)
    ensures IsSuccessCode(response.statusCode) && Parse(response, fromUtcString).Failure? ==>
              Parse(response, fromUtcString).error == FailedToParseBody
  {
  }

  /** `batRate` and `autocontribute.defaultChoice` must be ints or doubles; they are copied unchanged. */
  lemma RequiredScalars(statusCode: int, d: map<string, Value>, fromUtcString: string -> Option<Time>)
    requires IsSuccessCode(statusCode)
    ensures !(BatRate in d && GetIfDouble(d[BatRate]).Some?) ==>
              Parse(DictResponse(statusCode, d), fromUtcString) == Failure(FailedToParseBody)
    ensures !("autocontribute" in d && d["autocontribute"].Dict? && "defaultChoice" in d["autocontribute"].entries
              && GetIfDouble(d["autocontribute"].entries["defaultChoice"]).Some?) ==>
              Parse(DictResponse(statusCode, d), fromUtcString) == Failure(FailedToParseBody)
    ensures Parse(DictResponse(statusCode, d), fromUtcString).Success? ==>
              && BatRate in d
              && GetIfDouble(d[BatRate]) == Some(Parse(DictResponse(statusCode, d), fromUtcString).value.rate)
              && GetIfDouble(d["autocontribute"].entries["defaultChoice"]) ==
                   Some(Parse(DictResponse(statusCode, d), fromUtcString).value.autoContributeChoice)
  {
  }

  /** The raw list of a two-component path, when the outer key names a dictionary holding a list there. */
  predicate HasListAt(d: map<string, Value>, outer: string, inner: string) {
    outer in d && d[outer].Dict? && inner in d[outer].entries && d[outer].entries[inner].List?
  }

  function ListAt(d: map<string, Value>, outer: string, inner: string): seq<Value>
    requires HasListAt(d, outer, inner)
  {
    d[outer].entries[inner].items
  }

  /**
   Each of `autocontribute.choices`, `tips.defaultTipChoices` and
   `tips.defaultMonthlyChoices` must be a non-empty list; the result holds
   exactly its int and double elements, in order.
   */
  lemma ChoiceLists(statusCode: int, d: map<string, Value>, fromUtcString: string -> Option<Time>)
    requires IsSuccessCode(statusCode)
    ensures !(HasListAt(d, "autocontribute", "choices") && |ListAt(d, "autocontribute", "choices")| > 0) ==>
              Parse(DictResponse(statusCode, d), fromUtcString) == Failure(FailedToParseBody)
    ensures !(HasListAt(d, "tips", "defaultTipChoices") && |ListAt(d, "tips", "defaultTipChoices")| > 0) ==>
              Parse(DictResponse(statusCode, d), fromUtcString) == Failure(FailedToParseBody)
    ensures !(HasListAt(d, "tips", "defaultMonthlyChoices") && |ListAt(d, "tips", "defaultMonthlyChoices")| > 0) ==>
              Parse(DictResponse(statusCode, d), fromUtcString) == Failure(FailedToParseBody)
    ensures Parse(DictResponse(statusCode, d), fromUtcString).Success? ==>
              var p := Parse(DictResponse(statusCode, d), fromUtcString).value;
              && p.autoContributeChoices == Collect(ListAt(d, "autocontribute", "choices"), GetIfDouble)
              && p.tipChoices == Collect(ListAt(d, "tips", "defaultTipChoices"), GetIfDouble)
              && p.monthlyTipChoices == Collect(ListAt(d, "tips", "defaultMonthlyChoices"), GetIfDouble)
  {
  }

  /**
   The emptiness test is on the raw list: a non-empty `autocontribute.choices`
   without a single number still succeeds, with no choices.
   */
  lemma ChoicesWithoutNumbers(statusCode: int, d: map<string, Value>, fromUtcString: string -> Option<Time>)
    requires IsSuccessCode(statusCode)
    requires HasRequiredFields(d)
    requires HasListAt(d, "autocontribute", "choices")
    requires forall i :: 0 <= i < |ListAt(d, "autocontribute", "choices")| ==>
               !ListAt(d, "autocontribute", "choices")[i].Int? && !ListAt(d, "autocontribute", "choices")[i].Double?
    ensures Parse(DictResponse(statusCode, d), fromUtcString).Success?
    ensures Parse(DictResponse(statusCode, d), fromUtcString).value.autoContributeChoices == []
  {
    ChoiceLists(statusCode, d, fromUtcString);
    CollectEmpty(ListAt(d, "autocontribute", "choices"), GetIfDouble);
  }

  /** `payoutStatus` must be a dictionary; the result holds exactly its string entries. */
  lemma PayoutStatusEntries(statusCode: int, d: map<string, Value>, fromUtcString: string -> Option<Time>)
    requires IsSuccessCode(statusCode)
    ensures !(PayoutStatus in d && d[PayoutStatus].Dict?) ==>
              Parse(DictResponse(statusCode, d), fromUtcString) == Failure(FailedToParseBody)
    ensures Parse(DictResponse(statusCode, d), fromUtcString).Success? ==>
              var status := Parse(DictResponse(statusCode, d), fromUtcString).value.payoutStatus;
              var raw := d[PayoutStatus].entries;
              && (forall k :: k in status <==> k in raw && raw[k].Str?)
              && (forall k :: k in status ==> status[k] == raw[k].s)
  {
  }

  /**
   `custodianRegions` must be present and a dictionary; the result is what
   ValueToWalletProviderRegions makes of it.
   */
  lemma CustodianRegionsRequired(statusCode: int, d: map<string, Value>, fromUtcString: string -> Option<Time>)
    requires IsSuccessCode(statusCode)
    ensures !(CustodianRegions in d && d[CustodianRegions].Dict?) ==>
              Parse(DictResponse(statusCode, d), fromUtcString) == Failure(FailedToParseBody)
    ensures Parse(DictResponse(statusCode, d), fromUtcString).Success? ==>
              Some(Parse(DictResponse(statusCode, d), fromUtcString).value.walletProviderRegions) ==
                WalletProviderRegions(d[CustodianRegions])
  {
  }

  /**
   ValueToWalletProviderRegions: none for a non-dictionary; otherwise one entry
   per provider whose value is a dictionary, whose allow and block lists are
   the string elements of that dictionary's lists, in order, and empty when
   the list is missing.
   */
  lemma WalletProviderRegionsShape(value: Value)
    ensures WalletProviderRegions(value).None? <==> !value.Dict?
    ensures value.Dict? ==>
              var r := WalletProviderRegions(value).value;
              && (forall p :: p in r <==> p in value.entries && value.entries[p].Dict?)
              && (forall p :: p in r ==>
                    && r[p].allow == GetList(Allow, value.entries[p].entries)
                    && r[p].block == GetList(Block, value.entries[p].entries))
  {
  }

  /** A list that is missing, or is not a list, gives no regions; a list gives its strings in order. */
  lemma GetListCases(name: string, regions: map<string, Value>)
    ensures !(name in regions && regions[name].List?) ==> GetList(name, regions) == []
    ensures name in regions && regions[name].List? ==>
              GetList(name, regions) == Collect(regions[name].items, GetIfString)
  {
  }

  const OptionalKeys: set<string> := {VbatDeadline, VbatExpired, TosVersion}

  /**
   `vbatDeadline`, `vbatExpired` and `tosVersion` never make the mapping fail:
   without them the outcome is the same, apart from those three fields.
   */
  lemma OptionalFieldsNeverFail(statusCode: int, d: map<string, Value>, fromUtcString: string -> Option<Time>)
    ensures Parse(DictResponse(statusCode, d), fromUtcString).Success? <==>
              Parse(DictResponse(statusCode, d - OptionalKeys), fromUtcString).Success?
    ensures Parse(DictResponse(statusCode, d), fromUtcString).Success? ==>
              Parse(DictResponse(statusCode, d), fromUtcString).value.(vbatDeadline := None, vbatExpired := None, tosVersion := None)
                == Parse(DictResponse(statusCode, d - OptionalKeys), fromUtcString).value
  {
  }

  /** An optional field that is absent or of the wrong type keeps its default; otherwise it is copied. */
  lemma OptionalFieldValues(statusCode: int, d: map<string, Value>, fromUtcString: string -> Option<Time>)
    requires Parse(DictResponse(statusCode, d), fromUtcString).Success?
    ensures var p := Parse(DictResponse(statusCode, d), fromUtcString).value;
      && p.vbatExpired == (if VbatExpired in d && d[VbatExpired].Bool? then Some(d[VbatExpired].b) else None)
      && p.tosVersion == (if TosVersion in d && d[TosVersion].Int? then Some(d[TosVersion].i) else None)
      && p.vbatDeadline == (if VbatDeadline in d && d[VbatDeadline].Str? then fromUtcString(d[VbatDeadline].s) else None)
  {
  }
}
