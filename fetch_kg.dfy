/**
 * The `fetch-kg` action: validate the contract address and chain id, build
 * a "not found" result record, and, when a space id is given, query that
 * space and scan its entities for the first one holding a "Contract
 * Address" pair and a "Chain ID" pair equal to the arguments. On a match the
 * record takes the entity's id and name, its contract name and its ERC-7730
 * payload, which is parsed as JSON when it can be and kept as text when not.
 *
 * The space query is the one external call; its answer is a `SpaceReply`,
 * and `parse` stands for `JSON.parse`, returning `None` where it throws.
 */
module FetchKg {
  import opened Wrappers
  import opened JsSemantics
  import opened TaskArgs
  import opened Hypergraph

  datatype FetchArgs = FetchArgs(contract: string, chainId: string, spaceId: Option<string>, testnet: bool, json: bool)

  /** One entity of a space, as the scan reads it (a missing `values` list reads as an empty one). */
  datatype Entity = Entity(id: string, name: Option<string>, values: seq<PropertyValue>)

  /** The answer to `GET <origin>/space/<spaceId>`. */
  datatype SpaceReply =
    | Unreachable                               // `fetch` or `json()` threw: the warning is logged, the search ends
    | NotOk(status: int, statusText: string)    // `!spaceResponse.ok`
    | SpaceData(entities: Option<seq<Entity>>)  // `spaceData.entities`, None when it is falsy

  /** The `erc7730Json` field: null, a parsed document, or the raw text that did not parse. */
  datatype Payload = NullPayload | Parsed(doc: Json) | Raw(text: string)

  datatype ContractMetadata = ContractMetadata(
    id: string, name: string, contractAddress: string, chainId: string, contractName: string,
    erc7730Json: Payload, spaceId: string, found: bool)

  /** The record before any search: nothing found, only the inputs filled in. */
  function InitialMetadata(contract: string, chainId: string, spaceId: Option<string>): ContractMetadata {
    ContractMetadata("", "", contract, chainId, "", NullPayload, OrEmpty(spaceId), false)
  }

  /** `values.find(v => v.property === property && v.value === value)` is truthy: the exact pair is present. */
  function HasPair(values: seq<PropertyValue>, property: string, value: string): (b: bool)
    ensures b <==> PropertyValue(property, value) in values
  {
    Find(values, (v: PropertyValue) => v.property == property && v.value == value).Some?
  }

  /** An entity matches when it holds the contract address and the chain id under their property names. */
  predicate Matches(e: Entity, contract: string, chainId: string) {
    PropertyValue(ContractAddressProperty, contract) in e.values && PropertyValue(ChainIdProperty, chainId) in e.values
  }

  /** The index of the first matching entity, if any. */
  function FirstMatch(es: seq<Entity>, contract: string, chainId: string): (k: Option<nat>)
    ensures k.None? <==> forall i :: 0 <= i < |es| ==> !Matches(es[i], contract, chainId)
    ensures k.Some? ==>
      && k.value < |es| && Matches(es[k.value], contract, chainId)
      && forall j :: 0 <= j < k.value ==> !Matches(es[j], contract, chainId)
  {
    if es == [] then None
    else if Matches(es[0], contract, chainId) then Some(0)
    else
      var rest := FirstMatch(es[1..], contract, chainId);
      assert forall i :: 1 <= i < |es| ==> es[i] == es[1..][i - 1];
      if rest.None? then None else Some(rest.value + 1)
  }

  /** `values.find(v => v.property === property)?.value`: the value of the first pair under that property. */
  function FirstValue(values: seq<PropertyValue>, property: string): (r: Option<string>)
    ensures r.None? <==> forall i :: 0 <= i < |values| ==> values[i].property != property
    ensures r.Some? ==>
      exists i :: && 0 <= i < |values| && values[i] == PropertyValue(property, r.value)
                  && forall j :: 0 <= j < i ==> values[j].property != property
  {
    match Find(values, (v: PropertyValue) => v.property == property)
    case None => None
    case Some(pair) => Some(pair.value)
  }

  /**
   * The ERC-7730 payload: null when the value is absent or empty, the parsed
   * document when it parses, and the raw text when parsing throws.
   */
  function PayloadOf(text: Option<string>, parse: string -> Option<Json>): (p: Payload)
    ensures p == NullPayload <==> !Truthy(text)
    ensures p.Parsed? <==> Truthy(text) && parse(text.value).Some?
    ensures p.Parsed? ==> p.doc == parse(text.value).value
    ensures p.Raw? ==> p.text == text.value && p.text != ""
  {
    if Truthy(text) then
      match parse(text.value)
      case Some(doc) => Parsed(doc)
      case None => Raw(text.value)
    else NullPayload
  }

  /** The record after the entity `e` matched. */
  function Matched(init: ContractMetadata, e: Entity, parse: string -> Option<Json>): ContractMetadata {
    init.(found := true, id := e.id, name := OrEmpty(e.name),
          contractName := OrEmpty(FirstValue(e.values, ContractNameProperty)),
          erc7730Json := PayloadOf(FirstValue(e.values, Erc7730JsonProperty), parse))
  }

  /** What a query of the space contributes: the first matching entity, or nothing. */
  function SearchSpace(init: ContractMetadata, reply: SpaceReply, contract: string, chainId: string,
                       parse: string -> Option<Json>): ContractMetadata
  {
    match reply
    case SpaceData(Some(es)) => ScanResult(init, es, contract, chainId, parse)
    case _ => init
  }

  /** The record after scanning `es`: filled in from the first matching entity, or unchanged. */
  function ScanResult(init: ContractMetadata, es: seq<Entity>, contract: string, chainId: string,
                      parse: string -> Option<Json>): ContractMetadata
  {
    match FirstMatch(es, contract, chainId)
    case Some(k) => Matched(init, es[k], parse)
    case None => init
  }

  /** What one run of the action returns. */
  function FetchRun(args: FetchArgs, reply: SpaceReply, parse: string -> Option<Json>): Result<ContractMetadata, ArgError> {
    match FirstMissing(FetchChecks(args.contract, args.chainId))
    case Some(e) => Failure(e)
    case None =>
      var init := InitialMetadata(args.contract, args.chainId, args.spaceId);
      Success(if Truthy(args.spaceId) then SearchSpace(init, reply, args.contract, args.chainId, parse) else init)
  }

  /** The URL the run queries, if it queries one. */
  function FetchQuery(args: FetchArgs): Option<string> {
    if FirstMissing(FetchChecks(args.contract, args.chainId)).None? && Truthy(args.spaceId)
    then Some(SpaceUrl(ApiOrigin(args.testnet), args.spaceId.value))
    else None
  }

  /**
   * The action itself: the checks, the initial record, and the scan that
   * fills the record in on the first match and stops there.
   */
  method FetchKgAction(args: FetchArgs, reply: SpaceReply, parse: string -> Option<Json>)
    returns (outcome: Result<ContractMetadata, ArgError>, query: Option<string>)
    ensures outcome == FetchRun(args, reply, parse)
    ensures query == FetchQuery(args)
  {
    query := None;
    FetchRunSteps(args, reply, parse);
    if IsBlank(args.contract) {
      return Failure(ContractRequired), query;
    }
    if IsBlank(args.chainId) {
      return Failure(ChainIdRequired), query;
    }

    var apiOrigin := ApiOrigin(args.testnet);
    var searchSpaceId := args.spaceId;
    var result := ContractMetadata("", "", args.contract, args.chainId, "", NullPayload, OrEmpty(searchSpaceId), false);

    if Truthy(searchSpaceId) {
      query := Some(SpaceUrl(apiOrigin, searchSpaceId.value));
      if reply.SpaceData? && reply.entities.Some? {
        result := ScanEntities(result, reply.entities.value, args.contract, args.chainId, parse);
      }
    }
    outcome := Success(result);
  }

  /**
   * The `for` loop over the space's entities: the first entity holding both
   * pairs fills in the record, and the loop stops there.
   */
  method ScanEntities(init: ContractMetadata, entities: seq<Entity>, contract: string, chainId: string,
                      parse: string -> Option<Json>)
    returns (result: ContractMetadata)
    ensures result == ScanResult(init, entities, contract, chainId, parse)
  {
    result := init;
    var i := 0;
    while i < |entities|
      invariant 0 <= i <= |entities|
      invariant forall j :: 0 <= j < i ==> !Matches(entities[j], contract, chainId)
      invariant result == init
    {
      var entity := entities[i];
      var contractAddressMatch := HasPair(entity.values, ContractAddressProperty, contract);
      var chainIdMatch := HasPair(entity.values, ChainIdProperty, chainId);
      if contractAddressMatch && chainIdMatch {
        result := result.(found := true);
        result := result.(id := entity.id);
        result := result.(name := OrEmpty(entity.name));
        var contractNameValue := FirstValue(entity.values, ContractNameProperty);
        result := result.(contractName := OrEmpty(contractNameValue));
        var erc7730Value := FirstValue(entity.values, Erc7730JsonProperty);
        result := result.(erc7730Json := PayloadOf(erc7730Value, parse));
        assert FirstMatch(entities, contract, chainId) == Some(i);
        return;
      }
      i := i + 1;
    }
  }

  /** `FetchRun` and `FetchQuery` step by step, in the order the action takes the steps. */
  lemma FetchRunSteps(args: FetchArgs, reply: SpaceReply, parse: string -> Option<Json>)
    ensures IsBlank(args.contract) ==> FetchRun(args, reply, parse) == Failure(ContractRequired) && FetchQuery(args).None?
    ensures !IsBlank(args.contract) && IsBlank(args.chainId) ==>
      FetchRun(args, reply, parse) == Failure(ChainIdRequired) && FetchQuery(args).None?
    ensures !IsBlank(args.contract) && !IsBlank(args.chainId) ==>
      var init := InitialMetadata(args.contract, args.chainId, args.spaceId);
      && FetchRun(args, reply, parse) == Success(if Truthy(args.spaceId) then SearchSpace(init, reply, args.contract, args.chainId, parse) else init)
      && FetchQuery(args) == if Truthy(args.spaceId) then Some(SpaceUrl(ApiOrigin(args.testnet), args.spaceId.value)) else None
  {
    FetchValidationOrder(args.contract, args.chainId);
  }

  /** A match found early is not disturbed by entities that follow it. */
  lemma {:induction false} FirstMatchIgnoresLater(es: seq<Entity>, later: seq<Entity>, contract: string, chainId: string)
    requires FirstMatch(es, contract, chainId).Some?
    ensures FirstMatch(es + later, contract, chainId) == FirstMatch(es, contract, chainId)
  {
    assert es != [];
    if !Matches(es[0], contract, chainId) {
      assert (es + later)[1..] == es[1..] + later;
      FirstMatchIgnoresLater(es[1..], later, contract, chainId);
    }
  }

  /** An optional position moved `n` places on. */
  function Shifted(k: Option<nat>, n: nat): Option<nat> {
    if k.None? then None else Some(k.value + n)
  }

  /** Entities that do not match only shift the position of the first match. */
  lemma {:induction false} FirstMatchSkipsNonMatching(skipped: seq<Entity>, es: seq<Entity>, contract: string, chainId: string)
    requires forall i :: 0 <= i < |skipped| ==> !Matches(skipped[i], contract, chainId)
    ensures FirstMatch(skipped + es, contract, chainId) == Shifted(FirstMatch(es, contract, chainId), |skipped|)
    decreases |skipped|
  {
    if skipped == [] {
      assert skipped + es == es;
    } else {
      var tail := skipped[1..] + es;
      assert skipped + es == [skipped[0]] + tail;
      FirstMatchSkipsNonMatching(skipped[1..], es, contract, chainId);
      FirstMatchSkipsOne(skipped[0], tail, contract, chainId);
    }
  }

  /** One non-matching entity in front shifts the first match by one. */
  lemma FirstMatchSkipsOne(e: Entity, es: seq<Entity>, contract: string, chainId: string)
    requires !Matches(e, contract, chainId)
    ensures FirstMatch([e] + es, contract, chainId) == Shifted(FirstMatch(es, contract, chainId), 1)
  {
    assert ([e] + es)[1..] == es;
  }

  /** The run fails exactly when the contract address or the chain id is blank, the address being checked first. */
  lemma FetchValidation(args: FetchArgs, reply: SpaceReply, parse: string -> Option<Json>)
    ensures AllWhitespace(args.contract) ==> FetchRun(args, reply, parse) == Failure(ContractRequired)
    ensures !AllWhitespace(args.contract) && AllWhitespace(args.chainId) ==>
      FetchRun(args, reply, parse) == Failure(ChainIdRequired)
    ensures FetchRun(args, reply, parse).Failure? <==> AllWhitespace(args.contract) || AllWhitespace(args.chainId)
    ensures FetchRun(args, reply, parse).Failure? ==> FetchQuery(args).None?
  {
    FetchValidationOrder(args.contract, args.chainId);
  }

  /** Without a space id nothing is queried and the record stays the initial one. */
  lemma NoSpaceNoSearch(args: FetchArgs, reply: SpaceReply, parse: string -> Option<Json>)
    requires !Truthy(args.spaceId)
    ensures FetchQuery(args).None?
    ensures FetchRun(args, reply, parse).Success? ==>
      FetchRun(args, reply, parse).value == InitialMetadata(args.contract, args.chainId, args.spaceId)
    ensures FetchRun(args, reply, parse).Success? ==> FetchRun(args, reply, parse).value.spaceId == ""
  {
  }

  /** The contract address, the chain id and the space id of the record are the inputs, whatever the search finds. */
  lemma FetchKeepsInputs(args: FetchArgs, reply: SpaceReply, parse: string -> Option<Json>)
    requires FetchRun(args, reply, parse).Success?
    ensures var m := FetchRun(args, reply, parse).value;
      m.contractAddress == args.contract && m.chainId == args.chainId
      && (Truthy(args.spaceId) ==> m.spaceId == args.spaceId.value) && (m.spaceId == "" <==> !Truthy(args.spaceId))
  {
  }

  /**
   * The record is marked found exactly when a space id is given, the space
   * answered with an entity list, and some entity in it matches; a reply
   * that is not ok or that failed leaves the record as it was.
   */
  lemma FoundIffSomeMatch(args: FetchArgs, reply: SpaceReply, parse: string -> Option<Json>)
    requires FetchRun(args, reply, parse).Success?
    ensures FetchRun(args, reply, parse).value.found <==>
      Truthy(args.spaceId) && reply.SpaceData? && reply.entities.Some?
      && exists i :: 0 <= i < |reply.entities.value| && Matches(reply.entities.value[i], args.contract, args.chainId)
    ensures !FetchRun(args, reply, parse).value.found ==>
      FetchRun(args, reply, parse).value == InitialMetadata(args.contract, args.chainId, args.spaceId)
  {
  }

  /**
   * A found record describes the first matching entity: its id, its name or
   * `""`, the value of its first "Contract Name" pair or `""`, and its
   * ERC-7730 payload.
   */
  lemma FoundIsFirstMatch(args: FetchArgs, reply: SpaceReply, parse: string -> Option<Json>)
    requires FetchRun(args, reply, parse).Success? && FetchRun(args, reply, parse).value.found
    ensures reply.SpaceData? && reply.entities.Some?
    ensures var es := reply.entities.value; var m := FetchRun(args, reply, parse).value;
      exists k :: 0 <= k < |es| && Matches(es[k], args.contract, args.chainId)
        && (forall j :: 0 <= j < k ==> !Matches(es[j], args.contract, args.chainId))
        && m.id == es[k].id && m.name == OrEmpty(es[k].name)
        && m.contractName == OrEmpty(FirstValue(es[k].values, ContractNameProperty))
        && m.erc7730Json == PayloadOf(FirstValue(es[k].values, Erc7730JsonProperty), parse)
  {
    var k := FirstMatch(reply.entities.value, args.contract, args.chainId).value;
    assert 0 <= k < |reply.entities.value|;
  }
}
