/**
 * The `publish-kg` action: validate the arguments, choose and check the
 * private key, read the ERC-7730 descriptor, set up the wallet, reuse or
 * create a space, assemble the operations that create four properties,
 * a "Smart Contract Metadata" type and one entity, publish them to IPFS,
 * request transaction calldata from the API and send the transaction.
 *
 * Every external effect is an `ExternalCall` appended to a trace, and its
 * answer comes from `Replies`; `PublishRun` says what a run does for given
 * answers, and the method `PublishKgAction` performs it step by step.
 */
module PublishKg {
  import opened Wrappers
  import opened JsSemantics
  import opened TaskArgs
  import opened Hypergraph
  import opened Grc20
  import opened PrivateKey

  datatype PublishArgs = PublishArgs(
    contract: string, chainId: string, contractName: string, erc7730File: string,
    privateKey: Option<string>, spaceId: Option<string>, testnet: bool)

  /** The answer to the calldata request. */
  datatype CalldataReply =
    | NoResponse                            // `fetch` rejected
    | HttpError(status: int, statusText: string)  // `!result.ok`
    | BadBody                               // `result.json()` rejected
    | CalldataBody(to: string, data: string)

  /** The answers the outside world gives, in the order they are asked for. */
  datatype Replies = Replies(
    wallet: Option<string>,    // the account address, or None when key import or wallet setup fails
    newSpace: Option<string>,  // the id `Graph.createSpace` returns, or None when it fails
    cid: Option<string>,       // the CID `Ipfs.publishEdit` returns, or None when it fails
    calldata: CalldataReply,
    txHash: Option<string>)    // the hash `sendTransaction` returns, or None when it fails

  datatype ExternalCall =
    | ReadDescriptor(path: string)
    | ConnectWallet(privateKey: string, rpcUrl: Option<string>)
    | CreateSpace(editor: string, name: string, network: Network)
    | PublishEdit(name: string, ops: seq<Op>, author: string, network: Network)
    | PostCalldata(url: string, cid: string)
    | SendTransaction(to: string, value: nat, data: string)

  datatype PublishError =
    | MissingArgument(arg: ArgError)
    | KeyRejected(reason: KeyError)
    | DescriptorUnreadable
    | WalletSetupFailed
    | SpaceCreationFailed
    | IpfsPublishFailed
    | CalldataRequestFailed
    | CalldataRejected(status: int, statusText: string)  // "Failed to get calldata: <status> <statusText>"
    | CalldataUnreadable
    | TransactionFailed

  datatype PublishResult = PublishResult(spaceId: string, entityId: string, cid: string, txHash: string)

  /** What a run returns, which external calls it makes, and which ids it mints. */
  datatype Run = Run(outcome: Result<PublishResult, PublishError>, calls: seq<ExternalCall>, minted: seq<string>)

  /** How many ids one publish mints: four properties, one type, one entity. */
  const SchemaSize: nat := 6

  /** The six ids one publish mints, in the order it mints them. */
  datatype SchemaIds = SchemaIds(
    contractAddress: string, chainId: string, contractName: string, erc7730: string,
    smartContractType: string, entity: string)

  function IdList(ids: SchemaIds): seq<string> {
    [ids.contractAddress, ids.chainId, ids.contractName, ids.erc7730, ids.smartContractType, ids.entity]
  }

  /** The ids a client that has issued `issued` mints for one publish, named by what they identify. */
  function SchemaOf(issued: seq<string>): (ids: SchemaIds)
    ensures IdList(ids) == Mint(issued, SchemaSize)
  {
    var m := Mint(issued, SchemaSize);
    SchemaIds(m[0], m[1], m[2], m[3], m[4], m[5])
  }

  predicate Distinct(ids: seq<string>) {
    forall i, j :: 0 <= i < j < |ids| ==> ids[i] != ids[j]
  }

  /** `${contractName} (${chainId}:${contract})` */
  function EntityName(contractName: string, chainId: string, contract: string): string {
    contractName + " (" + chainId + ":" + contract + ")"
  }

  /** `ERC-7730 metadata for ${contractName} contract on chain ${chainId}` */
  function EntityDescription(contractName: string, chainId: string): string {
    "ERC-7730 metadata for " + contractName + " contract on chain " + chainId
  }

  /** `Smart Contract Metadata: ${contractName}` */
  function EditName(contractName: string): string {
    SmartContractMetadata + ": " + contractName
  }

  /**
   * The edit one publish assembles: the four TEXT properties, the type
   * listing them in order, and the entity holding one value per property.
   */
  function MetadataOps(contract: string, chainId: string, contractName: string, descriptorText: string, ids: SchemaIds): seq<Op> {
    [ CreatePropertyOp(ids.contractAddress, ContractAddressProperty, Text),
      CreatePropertyOp(ids.chainId, ChainIdProperty, Text),
      CreatePropertyOp(ids.contractName, ContractNameProperty, Text),
      CreatePropertyOp(ids.erc7730, Erc7730JsonProperty, Text),
      CreateTypeOp(ids.smartContractType, SmartContractMetadata,
        [ids.contractAddress, ids.chainId, ids.contractName, ids.erc7730]),
      CreateEntityOp(ids.entity, EntityName(contractName, chainId, contract), EntityDescription(contractName, chainId),
        [ids.smartContractType],
        [ PropertyValue(ids.contractAddress, contract), PropertyValue(ids.chainId, chainId),
          PropertyValue(ids.contractName, contractName), PropertyValue(ids.erc7730, descriptorText) ]) ]
  }

  function PropertiesOf(values: seq<PropertyValue>): (ps: seq<string>)
    ensures |ps| == |values|
  {
    seq(|values|, i requires 0 <= i < |values| => values[i].property)
  }

  /** Some op before position `k` creates a property with id `id`. */
  predicate PropertyBefore(ops: seq<Op>, k: int, id: string) {
    exists j :: 0 <= j < k && j < |ops| && ops[j].CreatePropertyOp? && ops[j].id == id
  }

  /** Some op before position `k` creates a type with id `id` whose properties are `properties`. */
  predicate TypeBefore(ops: seq<Op>, k: int, id: string, properties: seq<string>) {
    exists j :: 0 <= j < k && j < |ops| && ops[j].CreateTypeOp? && ops[j].id == id && ops[j].properties == properties
  }

  /**
   * Every op creates a different id, every property a type lists is created
   * before the type, and every entity has one type, created before it, whose
   * properties its values fill in the type's order.
   */
  predicate WellFormedEdit(ops: seq<Op>) {
    && (forall i, j :: 0 <= i < j < |ops| ==> ops[i].id != ops[j].id)
    && (forall k, p :: 0 <= k < |ops| && ops[k].CreateTypeOp? && p in ops[k].properties ==> PropertyBefore(ops, k, p))
    && (forall k :: 0 <= k < |ops| && ops[k].CreateEntityOp? ==>
          |ops[k].types| == 1 && TypeBefore(ops, k, ops[k].types[0], PropertiesOf(ops[k].values)))
  }

  /** With distinct ids, the assembled edit is well formed. */
  lemma MetadataOpsWellFormed(contract: string, chainId: string, contractName: string, descriptorText: string, ids: SchemaIds)
    requires Distinct(IdList(ids))
    ensures WellFormedEdit(MetadataOps(contract, chainId, contractName, descriptorText, ids))
  {
    var ops := MetadataOps(contract, chainId, contractName, descriptorText, ids);
    var l := IdList(ids);
    assert forall i :: 0 <= i < 6 ==> ops[i].id == l[i];
    assert forall p :: p in ops[4].properties ==> PropertyBefore(ops, 4, p) by {
      assert ops[4].properties == [ops[0].id, ops[1].id, ops[2].id, ops[3].id];
    }
    assert PropertiesOf(ops[5].values) == ops[4].properties;
    assert TypeBefore(ops, 5, ops[5].types[0], PropertiesOf(ops[5].values));
  }

  /** The test `find` applies to locate the property named `name`. */
  function PropertyNamed(name: string): Op -> bool {
    (op: Op) => op.CreatePropertyOp? && op.name == name
  }

  predicate IsEntityOp(op: Op) {
    op.CreateEntityOp?
  }

  /** The test `find` applies to locate the value stored for the property with id `id`. */
  function ValueFor(id: string): PropertyValue -> bool {
    (v: PropertyValue) => v.property == id
  }

  /**
   * The value an edit's first entity stores under the property named
   * `propertyName`: find the property by name, then the entity's value for
   * that property's id.
   */
  function ValueUnder(ops: seq<Op>, propertyName: string): Option<string> {
    match Find(ops, PropertyNamed(propertyName))
    case None => None
    case Some(property) =>
      match Find(ops, IsEntityOp)
      case None => None
      case Some(entity) =>
        match Find(entity.values, ValueFor(property.id))
        case None => None
        case Some(pair) => Some(pair.value)
  }

  /** The four property names, in the order the edit creates the properties. */
  const PropertyNames: seq<string> := [ContractAddressProperty, ChainIdProperty, ContractNameProperty, Erc7730JsonProperty]

  /** The four property names differ from one another. */
  lemma PropertyNamesDistinct()
    ensures Distinct(PropertyNames)
  {
    var names := PropertyNames;
    assert names[0][0] == 'C' && names[1][0] == 'C' && names[2][0] == 'C' && names[3][0] == 'E';
    assert names[0][9] != names[2][9] && |names[1]| != |names[0]| && |names[1]| != |names[2]|;
  }

  /** The first four ops create the four properties, named in order. */
  lemma MetadataOpsProperties(contract: string, chainId: string, contractName: string, descriptorText: string, ids: SchemaIds)
    ensures var ops := MetadataOps(contract, chainId, contractName, descriptorText, ids);
      forall j :: 0 <= j < 4 ==> ops[j] == CreatePropertyOp(IdList(ids)[j], PropertyNames[j], Text)
  {
  }

  /** Looking up the `n`th property name in the assembled edit finds the `n`th op. */
  lemma FindsProperty(contract: string, chainId: string, contractName: string, descriptorText: string, ids: SchemaIds, n: nat)
    requires n < 4
    ensures var ops := MetadataOps(contract, chainId, contractName, descriptorText, ids);
      Find(ops, PropertyNamed(PropertyNames[n])) == Some(ops[n])
  {
    var ops := MetadataOps(contract, chainId, contractName, descriptorText, ids);
    PropertyNamesDistinct();
    MetadataOpsProperties(contract, chainId, contractName, descriptorText, ids);
    FindAt(ops, PropertyNamed(PropertyNames[n]), n);
  }

  /** Looking up the `n`th property's id among the entity's values finds the `n`th value. */
  lemma FindsValue(contract: string, chainId: string, contractName: string, descriptorText: string, ids: SchemaIds, n: nat)
    requires Distinct(IdList(ids)) && n < 4
    ensures var values := MetadataOps(contract, chainId, contractName, descriptorText, ids)[5].values;
      Find(values, ValueFor(IdList(ids)[n])) == Some(values[n])
  {
    var values := MetadataOps(contract, chainId, contractName, descriptorText, ids)[5].values;
    var l := IdList(ids);
    assert forall j :: 0 <= j < 4 ==> values[j].property == l[j];
    FindAt(values, ValueFor(l[n]), n);
  }

  /** Reading back the `n`th property of the assembled edit gives the `n`th value of its entity. */
  lemma ReadBackAt(contract: string, chainId: string, contractName: string, descriptorText: string, ids: SchemaIds, n: nat)
    requires Distinct(IdList(ids)) && n < 4
    ensures var ops := MetadataOps(contract, chainId, contractName, descriptorText, ids);
      ValueUnder(ops, PropertyNames[n]) == Some(ops[5].values[n].value)
  {
    var ops := MetadataOps(contract, chainId, contractName, descriptorText, ids);
    FindsProperty(contract, chainId, contractName, descriptorText, ids, n);
    FindAt(ops, IsEntityOp, 5);
    FindsValue(contract, chainId, contractName, descriptorText, ids, n);
    assert ops[n].id == IdList(ids)[n];
  }

  /**
   * Reading the assembled edit back by property name gives the contract
   * address, chain id, contract name and serialised descriptor it was
   * built from.
   */
  lemma MetadataOpsReadBack(contract: string, chainId: string, contractName: string, descriptorText: string, ids: SchemaIds)
    requires Distinct(IdList(ids))
    ensures var ops := MetadataOps(contract, chainId, contractName, descriptorText, ids);
      && ValueUnder(ops, ContractAddressProperty) == Some(contract)
      && ValueUnder(ops, ChainIdProperty) == Some(chainId)
      && ValueUnder(ops, ContractNameProperty) == Some(contractName)
      && ValueUnder(ops, Erc7730JsonProperty) == Some(descriptorText)
  {
    ReadBackAt(contract, chainId, contractName, descriptorText, ids, 0);
    ReadBackAt(contract, chainId, contractName, descriptorText, ids, 1);
    ReadBackAt(contract, chainId, contractName, descriptorText, ids, 2);
    ReadBackAt(contract, chainId, contractName, descriptorText, ids, 3);
  }

  /**
   * The checks made before any external call: the required arguments in
   * order, then the private key. Success carries the key the wallet will use.
   */
  function CheckArgs(args: PublishArgs, envKey: Option<string>): Result<string, PublishError> {
    match FirstMissing(PublishChecks(args.contract, args.chainId, args.contractName, args.erc7730File))
    case Some(e) => Failure(MissingArgument(e))
    case None =>
      match ResolveKey(args.privateKey, envKey)
      case Failure(e) => Failure(KeyRejected(e))
      case Success(key) => Success(key)
  }

  /**
   * The checks in order: the first blank required argument; then a missing
   * key (neither the argument nor the environment value); then a chosen key
   * that is neither `0x` and 64 hex digits nor 64 bare hex digits. A key that
   * passes is the chosen one, with `0x` added when it lacks it.
   */
  lemma ChecksInOrder(args: PublishArgs, envKey: Option<string>)
    ensures CheckArgs(args, envKey) ==
      if AllWhitespace(args.contract) then Failure(MissingArgument(ContractRequired))
      else if AllWhitespace(args.chainId) then Failure(MissingArgument(ChainIdRequired))
      else if AllWhitespace(args.contractName) then Failure(MissingArgument(ContractNameRequired))
      else if AllWhitespace(args.erc7730File) then Failure(MissingArgument(Erc7730FileRequired))
      else if !Truthy(args.privateKey) && !Truthy(envKey) then Failure(KeyRejected(KeyRequired))
      else
        var chosen := ChooseKey(args.privateKey, envKey).value;
        if WellFormedKey(chosen) || IsHexBody(chosen) then Success(Normalize(chosen))
        else Failure(KeyRejected(InvalidKeyFormat))
  {
    PublishValidationOrder(args.contract, args.chainId, args.contractName, args.erc7730File);
    ResolveKeySucceedsIff(args.privateKey, envKey);
  }

  /** The run gets as far as choosing a space: checks passed, descriptor read, wallet set up. */
  predicate ReachesSpace(checked: Result<string, PublishError>, descriptor: Option<Json>, replies: Replies) {
    checked.Success? && descriptor.Some? && replies.wallet.Some?
  }

  /** The space the run publishes to: the given id when there is one, otherwise the created space's. */
  function ChosenSpace(spaceId: Option<string>, newSpace: Option<string>): (s: Option<string>)
    ensures Truthy(spaceId) ==> s == spaceId
    ensures !Truthy(spaceId) ==> s == newSpace
  {
    if Truthy(spaceId) then spaceId else newSpace
  }

  /**
   * What one run of the action does, given the outcome of its checks, the
   * ids the graph client mints and the answers of the outside world: a
   * failed check ends the run before any external call.
   */
  function PublishRun(args: PublishArgs, checked: Result<string, PublishError>, descriptor: Option<Json>,
                      pretty: Json -> string, replies: Replies, ids: SchemaIds): Run
  {
    match checked
    case Failure(e) => Run(Failure(e), [], [])
    case Success(key) => PrepareRun(args, key, descriptor, pretty, replies, ids)
  }

  /** Reading the descriptor, setting up the wallet, then reusing or creating the space. */
  function PrepareRun(args: PublishArgs, key: string, descriptor: Option<Json>, pretty: Json -> string,
                      replies: Replies, ids: SchemaIds): Run
  {
    var read := [ReadDescriptor(args.erc7730File)];
    if descriptor.None? then Run(Failure(DescriptorUnreadable), read, [])
    else
      var connected := read + [ConnectWallet(key, RpcUrl(args.testnet))];
      if replies.wallet.None? then Run(Failure(WalletSetupFailed), connected, [])
      else
        var address := replies.wallet.value;
        var located := SpaceCalls(args, key, address);
        var space := ChosenSpace(args.spaceId, replies.newSpace);
        if space.None? then Run(Failure(SpaceCreationFailed), located, [])
        else PublishInSpace(args, address, space.value, pretty(descriptor.value), replies, ids, located)
  }

  /** The calls made up to choosing the space: a space is created only when no space id is given. */
  function SpaceCalls(args: PublishArgs, key: string, address: string): seq<ExternalCall> {
    [ReadDescriptor(args.erc7730File), ConnectWallet(key, RpcUrl(args.testnet))]
    + (if Truthy(args.spaceId) then [] else [CreateSpace(address, SmartContractMetadata, NetworkOf(args.testnet))])
  }

  /** Once the descriptor is read, the wallet set up and a space chosen, the run continues in that space. */
  lemma PrepareRunReachesSpace(args: PublishArgs, key: string, descriptor: Option<Json>, pretty: Json -> string,
                               replies: Replies, ids: SchemaIds)
    requires descriptor.Some? && replies.wallet.Some? && ChosenSpace(args.spaceId, replies.newSpace).Some?
    ensures PrepareRun(args, key, descriptor, pretty, replies, ids)
         == PublishInSpace(args, replies.wallet.value, ChosenSpace(args.spaceId, replies.newSpace).value,
                           pretty(descriptor.value), replies, ids, SpaceCalls(args, key, replies.wallet.value))
  {
  }

  /** Minting the schema and entity, assembling the edit and publishing it to IPFS. */
  function PublishInSpace(args: PublishArgs, address: string, spaceId: string, descriptorText: string,
                          replies: Replies, ids: SchemaIds, calls: seq<ExternalCall>): Run
  {
    var minted := IdList(ids);
    var ops := MetadataOps(args.contract, args.chainId, args.contractName, descriptorText, ids);
    var published := calls + [PublishEdit(EditName(args.contractName), ops, address, NetworkOf(args.testnet))];
    if replies.cid.None? then Run(Failure(IpfsPublishFailed), published, minted)
    else SubmitEdit(args.testnet, spaceId, ids.entity, replies.cid.value, replies, published, minted)
  }

  /** Requesting the calldata for the published CID and sending the transaction. */
  function SubmitEdit(testnet: bool, spaceId: string, entityId: string, cid: string,
                      replies: Replies, calls: seq<ExternalCall>, minted: seq<string>): Run
  {
    var requested := calls + [PostCalldata(CalldataUrl(ApiOrigin(testnet), spaceId), cid)];
    match replies.calldata
    case NoResponse => Run(Failure(CalldataRequestFailed), requested, minted)
    case HttpError(status, statusText) => Run(Failure(CalldataRejected(status, statusText)), requested, minted)
    case BadBody => Run(Failure(CalldataUnreadable), requested, minted)
    case CalldataBody(to, data) =>
      var sent := requested + [SendTransaction(to, 0, data)];
      match replies.txHash
      case None => Run(Failure(TransactionFailed), sent, minted)
      case Some(hash) => Run(Success(PublishResult(spaceId, entityId, cid, hash)), sent, minted)
  }

  /** A failed check ends the run with that check's error, before any external call and before any id is minted. */
  lemma FailedCheckStopsRun(args: PublishArgs, envKey: Option<string>, descriptor: Option<Json>, pretty: Json -> string,
                            replies: Replies, ids: SchemaIds)
    requires AllWhitespace(args.contract) || AllWhitespace(args.chainId)
          || AllWhitespace(args.contractName) || AllWhitespace(args.erc7730File)
          || (!Truthy(args.privateKey) && !Truthy(envKey))
          || (var chosen := ChooseKey(args.privateKey, envKey).value; !WellFormedKey(chosen) && !IsHexBody(chosen))
    ensures var run := PublishRun(args, CheckArgs(args, envKey), descriptor, pretty, replies, ids);
      run.outcome.Failure? && run.calls == [] && run.minted == []
  {
    ChecksInOrder(args, envKey);
  }

  /** Every check passes and every external call answers. */
  predicate AllAnswered(args: PublishArgs, checked: Result<string, PublishError>, descriptor: Option<Json>, replies: Replies) {
    && ReachesSpace(checked, descriptor, replies)
    && ChosenSpace(args.spaceId, replies.newSpace).Some?
    && replies.cid.Some? && replies.calldata.CalldataBody? && replies.txHash.Some?
  }

  /** A run succeeds exactly when every check passes and every external call answers. */
  lemma PublishSucceedsIff(args: PublishArgs, checked: Result<string, PublishError>, descriptor: Option<Json>,
                           pretty: Json -> string, replies: Replies, ids: SchemaIds)
    ensures PublishRun(args, checked, descriptor, pretty, replies, ids).outcome.Success?
        <==> AllAnswered(args, checked, descriptor, replies)
  {
    if checked.Success? {
      PrepareRunSucceedsIff(args, checked.value, descriptor, pretty, replies, ids);
    }
  }

  /** After the checks, the run succeeds exactly when every external call answers. */
  lemma PrepareRunSucceedsIff(args: PublishArgs, key: string, descriptor: Option<Json>, pretty: Json -> string,
                              replies: Replies, ids: SchemaIds)
    ensures PrepareRun(args, key, descriptor, pretty, replies, ids).outcome.Success? <==>
      && descriptor.Some? && replies.wallet.Some? && ChosenSpace(args.spaceId, replies.newSpace).Some?
      && replies.cid.Some? && replies.calldata.CalldataBody? && replies.txHash.Some?
  {
    if descriptor.Some? && replies.wallet.Some? && ChosenSpace(args.spaceId, replies.newSpace).Some? {
      PrepareRunReachesSpace(args, key, descriptor, pretty, replies, ids);
    }
  }

  /**
   * The calls and the result of a successful run: the descriptor read, the
   * wallet set up with the checked key, a space created only when no id is
   * given, the edit published, the calldata requested for its CID in the
   * chosen space, and one transaction of value 0 sent; the result names the
   * chosen space, the last id minted (the entity's), the CID and the hash.
   */
  lemma SuccessfulRun(args: PublishArgs, checked: Result<string, PublishError>, descriptor: Option<Json>,
                      pretty: Json -> string, replies: Replies, ids: SchemaIds)
    requires AllAnswered(args, checked, descriptor, replies)
    ensures var run := PublishRun(args, checked, descriptor, pretty, replies, ids);
      var address := replies.wallet.value;
      var spaceId := ChosenSpace(args.spaceId, replies.newSpace).value;
      var ops := MetadataOps(args.contract, args.chainId, args.contractName, pretty(descriptor.value), ids);
      && run.minted == IdList(ids)
      && run.outcome == Success(PublishResult(spaceId, ids.entity, replies.cid.value, replies.txHash.value))
      && run.calls == SpaceCalls(args, checked.value, address)
           + [ PublishEdit(EditName(args.contractName), ops, address, NetworkOf(args.testnet)),
               PostCalldata(CalldataUrl(ApiOrigin(args.testnet), spaceId), replies.cid.value),
               SendTransaction(replies.calldata.to, 0, replies.calldata.data) ]
  {
    var key := checked.value;
    var address := replies.wallet.value;
    var spaceId := ChosenSpace(args.spaceId, replies.newSpace).value;
    var descriptorText := pretty(descriptor.value);
    var ops := MetadataOps(args.contract, args.chainId, args.contractName, descriptorText, ids);
    PrepareRunReachesSpace(args, key, descriptor, pretty, replies, ids);
    var located := SpaceCalls(args, key, address);
    var published := located + [PublishEdit(EditName(args.contractName), ops, address, NetworkOf(args.testnet))];
    assert PublishInSpace(args, address, spaceId, descriptorText, replies, ids, located)
        == SubmitEdit(args.testnet, spaceId, ids.entity, replies.cid.value, replies, published, IdList(ids));
  }

  /**
   * Space selection: a successful run reports the given space id when there
   * is one and creates no space; otherwise it creates a space and reports
   * the created space's id.
   */
  lemma SpaceSelection(args: PublishArgs, checked: Result<string, PublishError>, descriptor: Option<Json>,
                       pretty: Json -> string, replies: Replies, ids: SchemaIds)
    requires AllAnswered(args, checked, descriptor, replies)
    ensures var run := PublishRun(args, checked, descriptor, pretty, replies, ids);
      && (Truthy(args.spaceId) ==> run.outcome.value.spaceId == args.spaceId.value)
      && (!Truthy(args.spaceId) ==> run.outcome.value.spaceId == replies.newSpace.value)
      && ((exists i :: 0 <= i < |run.calls| && run.calls[i].CreateSpace?) <==> !Truthy(args.spaceId))
  {
    SuccessfulRun(args, checked, descriptor, pretty, replies, ids);
    RunMakesExpectedCalls(args, checked, descriptor, pretty, replies, ids);
    var run := PublishRun(args, checked, descriptor, pretty, replies, ids);
    if !Truthy(args.spaceId) {
      assert run.calls[2].CreateSpace?;
    }
  }

  /**
   * What each call a run makes carries, as the arguments and the earlier
   * answers determine it: the descriptor path; the checked key and the
   * testnet RPC override; a space only when no id is given, for the wallet's
   * address on the chosen network; the assembled edit over the minted ids;
   * the calldata URL of the chosen space and the published CID; and a
   * transaction of value 0 to the target and data the calldata reply names.
   */
  predicate ExpectedCall(c: ExternalCall, args: PublishArgs, checked: Result<string, PublishError>, descriptor: Option<Json>,
                         pretty: Json -> string, replies: Replies, ids: SchemaIds)
  {
    match c
    case ReadDescriptor(path) => path == args.erc7730File
    case ConnectWallet(key, rpcUrl) => checked == Success(key) && rpcUrl == RpcUrl(args.testnet)
    case CreateSpace(editor, name, network) =>
      && !Truthy(args.spaceId) && replies.wallet == Some(editor)
      && name == SmartContractMetadata && network == NetworkOf(args.testnet)
    case PublishEdit(name, ops, author, network) =>
      && descriptor.Some? && replies.wallet == Some(author)
      && name == EditName(args.contractName) && network == NetworkOf(args.testnet)
      && ops == MetadataOps(args.contract, args.chainId, args.contractName, pretty(descriptor.value), ids)
    case PostCalldata(url, cid) =>
      && ChosenSpace(args.spaceId, replies.newSpace).Some?
      && url == CalldataUrl(ApiOrigin(args.testnet), ChosenSpace(args.spaceId, replies.newSpace).value)
      && replies.cid == Some(cid)
    case SendTransaction(to, value, data) => replies.calldata == CalldataBody(to, data) && value == 0
  }

  /** The calls of the last two stages carry what `ExpectedCall` says. */
  lemma PublishInSpaceExpected(args: PublishArgs, checked: Result<string, PublishError>, descriptor: Option<Json>,
                               pretty: Json -> string, replies: Replies, ids: SchemaIds, calls: seq<ExternalCall>)
    requires descriptor.Some? && replies.wallet.Some? && ChosenSpace(args.spaceId, replies.newSpace).Some?
    requires forall i :: 0 <= i < |calls| ==> ExpectedCall(calls[i], args, checked, descriptor, pretty, replies, ids)
    ensures var run := PublishInSpace(args, replies.wallet.value, ChosenSpace(args.spaceId, replies.newSpace).value,
                                      pretty(descriptor.value), replies, ids, calls);
      forall i :: 0 <= i < |run.calls| ==> ExpectedCall(run.calls[i], args, checked, descriptor, pretty, replies, ids)
  {
    var address := replies.wallet.value;
    var spaceId := ChosenSpace(args.spaceId, replies.newSpace).value;
    var ops := MetadataOps(args.contract, args.chainId, args.contractName, pretty(descriptor.value), ids);
    var published := calls + [PublishEdit(EditName(args.contractName), ops, address, NetworkOf(args.testnet))];
    assert ExpectedCall(published[|calls|], args, checked, descriptor, pretty, replies, ids);
    if replies.cid.Some? {
      var requested := published + [PostCalldata(CalldataUrl(ApiOrigin(args.testnet), spaceId), replies.cid.value)];
      assert ExpectedCall(requested[|published|], args, checked, descriptor, pretty, replies, ids);
      if replies.calldata.CalldataBody? {
        var sent := requested + [SendTransaction(replies.calldata.to, 0, replies.calldata.data)];
        assert ExpectedCall(sent[|requested|], args, checked, descriptor, pretty, replies, ids);
      }
    }
  }

  /** Every call of every run carries what `ExpectedCall` says, whatever the answers. */
  lemma RunMakesExpectedCalls(args: PublishArgs, checked: Result<string, PublishError>, descriptor: Option<Json>,
                              pretty: Json -> string, replies: Replies, ids: SchemaIds)
    ensures var run := PublishRun(args, checked, descriptor, pretty, replies, ids);
      forall i :: 0 <= i < |run.calls| ==> ExpectedCall(run.calls[i], args, checked, descriptor, pretty, replies, ids)
  {
    if checked.Success? {
      PrepareRunExpected(args, checked, descriptor, pretty, replies, ids);
    }
  }

  /** The calls after the checks carry what `ExpectedCall` says. */
  lemma PrepareRunExpected(args: PublishArgs, checked: Result<string, PublishError>, descriptor: Option<Json>,
                           pretty: Json -> string, replies: Replies, ids: SchemaIds)
    requires checked.Success?
    ensures var run := PrepareRun(args, checked.value, descriptor, pretty, replies, ids);
      forall i :: 0 <= i < |run.calls| ==> ExpectedCall(run.calls[i], args, checked, descriptor, pretty, replies, ids)
  {
    var key := checked.value;
    var read := [ReadDescriptor(args.erc7730File)];
    assert ExpectedCall(read[0], args, checked, descriptor, pretty, replies, ids);
    if descriptor.None? {
      return;
    }
    var connected := read + [ConnectWallet(key, RpcUrl(args.testnet))];
    assert ExpectedCall(connected[1], args, checked, descriptor, pretty, replies, ids);
    if replies.wallet.None? {
      return;
    }
    var located := SpaceCalls(args, key, replies.wallet.value);
    assert forall i :: 0 <= i < |located| ==> ExpectedCall(located[i], args, checked, descriptor, pretty, replies, ids) by {
      assert located[..2] == connected;
      if !Truthy(args.spaceId) {
        assert ExpectedCall(located[2], args, checked, descriptor, pretty, replies, ids);
      }
    }
    if ChosenSpace(args.spaceId, replies.newSpace).None? {
      return;
    }
    PrepareRunReachesSpace(args, key, descriptor, pretty, replies, ids);
    PublishInSpaceExpected(args, checked, descriptor, pretty, replies, ids, located);
  }

  /**
   * The wallet is only ever set up with the key the checks chose and
   * normalised, which is well formed.
   */
  lemma WalletGetsCheckedKey(args: PublishArgs, envKey: Option<string>, descriptor: Option<Json>, pretty: Json -> string,
                             replies: Replies, ids: SchemaIds)
    ensures var run := PublishRun(args, CheckArgs(args, envKey), descriptor, pretty, replies, ids);
      forall i :: 0 <= i < |run.calls| && run.calls[i].ConnectWallet? ==>
        && WellFormedKey(run.calls[i].privateKey) && ChooseKey(args.privateKey, envKey).Some?
        && run.calls[i].privateKey == Normalize(ChooseKey(args.privateKey, envKey).value)
  {
    var checked := CheckArgs(args, envKey);
    RunMakesExpectedCalls(args, checked, descriptor, pretty, replies, ids);
  }

  /** No transaction is sent unless the calldata request answered with a body; the run then fails. */
  lemma NoTransactionWithoutCalldata(args: PublishArgs, checked: Result<string, PublishError>, descriptor: Option<Json>,
                                     pretty: Json -> string, replies: Replies, ids: SchemaIds)
    requires !replies.calldata.CalldataBody?
    ensures var run := PublishRun(args, checked, descriptor, pretty, replies, ids);
      && run.outcome.Failure?
      && forall i :: 0 <= i < |run.calls| ==> !run.calls[i].SendTransaction?
  {
    PublishSucceedsIff(args, checked, descriptor, pretty, replies, ids);
    RunMakesExpectedCalls(args, checked, descriptor, pretty, replies, ids);
  }

  /** A non-ok calldata response that the run reaches ends it with that status, right after the request. */
  lemma CalldataRejectedStopsRun(args: PublishArgs, checked: Result<string, PublishError>, descriptor: Option<Json>,
                                 pretty: Json -> string, replies: Replies, ids: SchemaIds)
    requires ReachesSpace(checked, descriptor, replies) && ChosenSpace(args.spaceId, replies.newSpace).Some?
    requires replies.cid.Some? && replies.calldata.HttpError?
    ensures var run := PublishRun(args, checked, descriptor, pretty, replies, ids);
      && run.outcome == Failure(CalldataRejected(replies.calldata.status, replies.calldata.statusText))
      && run.calls != [] && run.calls[|run.calls| - 1].PostCalldata?
  {
    PrepareRunReachesSpace(args, checked.value, descriptor, pretty, replies, ids);
  }

  /**
   * The network follows the `testnet` flag in every call: the RPC override,
   * the space's and the edit's network, and the API origin of the calldata request.
   */
  lemma NetworkFollowsFlag(args: PublishArgs, checked: Result<string, PublishError>, descriptor: Option<Json>,
                           pretty: Json -> string, replies: Replies, ids: SchemaIds)
    ensures var run := PublishRun(args, checked, descriptor, pretty, replies, ids);
      forall i :: 0 <= i < |run.calls| ==>
        && (run.calls[i].ConnectWallet? ==> (run.calls[i].rpcUrl == Some(TestnetRpcUrl) <==> args.testnet))
        && (run.calls[i].CreateSpace? ==> (run.calls[i].network == Testnet <==> args.testnet))
        && (run.calls[i].PublishEdit? ==> (run.calls[i].network == Testnet <==> args.testnet))
        && (run.calls[i].PostCalldata? ==> (StartsWith(run.calls[i].url, TestnetOrigin) <==> args.testnet))
  {
    RunMakesExpectedCalls(args, checked, descriptor, pretty, replies, ids);
    var run := PublishRun(args, checked, descriptor, pretty, replies, ids);
    forall i | 0 <= i < |run.calls| && run.calls[i].PostCalldata?
      ensures StartsWith(run.calls[i].url, TestnetOrigin) <==> args.testnet
    {
      var url := run.calls[i].url;
      assert StartsWith(url, ApiOrigin(args.testnet));
      if !args.testnet {
        assert url[..|MainnetOrigin|] == MainnetOrigin;
        assert |url| < |TestnetOrigin| || url[..|TestnetOrigin|][21] != TestnetOrigin[21];
      }
    }
  }

  /** Minting from `issued` yields six ids that are distinct and new. */
  lemma SchemaIdsFresh(issued: seq<string>)
    ensures var ids := SchemaOf(issued);
      Distinct(IdList(ids)) && forall i :: 0 <= i < |IdList(ids)| ==> IdList(ids)[i] !in issued
  {
    var minted := Mint(issued, SchemaSize);
    MintFresh(issued, SchemaSize);
    assert IdList(SchemaOf(issued)) == minted;
  }

  /**
   * Whatever the answers, every edit a run publishes is well formed and
   * creates only ids the client had not issued before the run.
   */
  lemma PublishedEditFresh(args: PublishArgs, checked: Result<string, PublishError>, descriptor: Option<Json>,
                           pretty: Json -> string, replies: Replies, issued: seq<string>)
    ensures var run := PublishRun(args, checked, descriptor, pretty, replies, SchemaOf(issued));
      forall i :: 0 <= i < |run.calls| && run.calls[i].PublishEdit? ==>
        && WellFormedEdit(run.calls[i].ops)
        && forall j :: 0 <= j < |run.calls[i].ops| ==> run.calls[i].ops[j].id !in issued
  {
    var ids := SchemaOf(issued);
    RunMakesExpectedCalls(args, checked, descriptor, pretty, replies, ids);
    SchemaIdsFresh(issued);
    forall contract, chainId, contractName, descriptorText
      ensures var ops := MetadataOps(contract, chainId, contractName, descriptorText, ids);
        WellFormedEdit(ops) && forall j :: 0 <= j < |ops| ==> ops[j].id !in issued
    {
      MetadataOpsWellFormed(contract, chainId, contractName, descriptorText, ids);
      var ops := MetadataOps(contract, chainId, contractName, descriptorText, ids);
      assert forall j :: 0 <= j < |ops| ==> ops[j].id == IdList(ids)[j];
    }
  }

  /** Six successive calls mint the ids `Mint` lists, in that order. */
  lemma MintSix(issued: seq<string>)
    ensures
      var a := NextId(issued);
      var b := NextId(issued + [a]);
      var c := NextId(issued + [a] + [b]);
      var d := NextId(issued + [a] + [b] + [c]);
      var e := NextId(issued + [a] + [b] + [c] + [d]);
      var f := NextId(issued + [a] + [b] + [c] + [d] + [e]);
      Mint(issued, SchemaSize) == [a, b, c, d, e, f]
  {
    var s0 := issued;
    var a := NextId(s0);
    var s1 := s0 + [a];
    var b := NextId(s1);
    var s2 := s1 + [b];
    var c := NextId(s2);
    var s3 := s2 + [c];
    var d := NextId(s3);
    var s4 := s3 + [d];
    var e := NextId(s4);
    var s5 := s4 + [e];
    var f := NextId(s5);
    assert Mint(s5, 1) == [f] by { assert Mint(s5 + [f], 0) == []; }
    assert Mint(s4, 2) == [e, f];
    assert Mint(s3, 3) == [d, e, f];
    assert Mint(s2, 4) == [c, d, e, f];
    assert Mint(s1, 5) == [b, c, d, e, f];
  }

  /**
   * The assembly of the edit inside the action: four `Graph.createProperty`
   * calls, one `Graph.createType`, one `Graph.createEntity`, each of whose
   * ops is pushed onto `ops` in turn.
   */
  method AssembleMetadataOps(graph: GraphClient, contract: string, chainId: string, contractName: string, descriptorText: string)
    returns (contractEntityId: string, ops: seq<Op>)
    modifies graph
    ensures graph.issued == old(graph.issued) + IdList(SchemaOf(old(graph.issued)))
    ensures ops == MetadataOps(contract, chainId, contractName, descriptorText, SchemaOf(old(graph.issued)))
    ensures contractEntityId == SchemaOf(old(graph.issued)).entity
  {
    ghost var start := graph.issued;
    ghost var ids := SchemaOf(start);
    MintSix(start);
    ops := [];
    var contractAddressPropertyId, contractAddressOps := graph.CreateProperty(ContractAddressProperty, Text);
    assert contractAddressPropertyId == ids.contractAddress;
    ops := ops + contractAddressOps;
    var chainIdPropertyId, chainIdOps := graph.CreateProperty(ChainIdProperty, Text);
    assert chainIdPropertyId == ids.chainId;
    ops := ops + chainIdOps;
    var contractNamePropertyId, contractNameOps := graph.CreateProperty(ContractNameProperty, Text);
    assert contractNamePropertyId == ids.contractName;
    ops := ops + contractNameOps;
    var erc7730PropertyId, erc7730Ops := graph.CreateProperty(Erc7730JsonProperty, Text);
    assert erc7730PropertyId == ids.erc7730;
    ops := ops + erc7730Ops;
    var smartContractTypeId, smartContractTypeOps := graph.CreateType(SmartContractMetadata,
      [contractAddressPropertyId, chainIdPropertyId, contractNamePropertyId, erc7730PropertyId]);
    assert smartContractTypeId == ids.smartContractType;
    ops := ops + smartContractTypeOps;
    var contractEntityOps;
    contractEntityId, contractEntityOps := graph.CreateEntity(
      EntityName(contractName, chainId, contract),
      EntityDescription(contractName, chainId),
      [smartContractTypeId],
      [ PropertyValue(contractAddressPropertyId, contract), PropertyValue(chainIdPropertyId, chainId),
        PropertyValue(contractNamePropertyId, contractName), PropertyValue(erc7730PropertyId, descriptorText) ]);
    assert contractEntityId == ids.entity;
    ops := ops + contractEntityOps;
  }

  /** The action itself: the argument checks and the key check, then the remaining steps. */
  method PublishKgAction(args: PublishArgs, envKey: Option<string>, descriptor: Option<Json>, pretty: Json -> string,
                         replies: Replies, graph: GraphClient)
    returns (outcome: Result<PublishResult, PublishError>, calls: seq<ExternalCall>)
    modifies graph
    ensures var run := PublishRun(args, CheckArgs(args, envKey), descriptor, pretty, replies, SchemaOf(old(graph.issued)));
      outcome == run.outcome && calls == run.calls && graph.issued == old(graph.issued) + run.minted
  {
    var missing := FirstMissing(PublishChecks(args.contract, args.chainId, args.contractName, args.erc7730File));
    if missing.Some? {
      return Failure(MissingArgument(missing.value)), [];
    }
    var walletPrivateKey := ResolveKey(args.privateKey, envKey);
    if walletPrivateKey.Failure? {
      return Failure(KeyRejected(walletPrivateKey.error)), [];
    }
    outcome, calls := PrepareStep(args, walletPrivateKey.value, descriptor, pretty, replies, graph);
  }

  /** Reading the descriptor, setting up the wallet, and reusing or creating the space. */
  method PrepareStep(args: PublishArgs, formattedPrivateKey: string, descriptor: Option<Json>, pretty: Json -> string,
                     replies: Replies, graph: GraphClient)
    returns (outcome: Result<PublishResult, PublishError>, calls: seq<ExternalCall>)
    modifies graph
    ensures var run := PrepareRun(args, formattedPrivateKey, descriptor, pretty, replies, SchemaOf(old(graph.issued)));
      outcome == run.outcome && calls == run.calls && graph.issued == old(graph.issued) + run.minted
  {
    var network := NetworkOf(args.testnet);
    calls := [ReadDescriptor(args.erc7730File)];
    if descriptor.None? {
      return Failure(DescriptorUnreadable), calls;
    }
    var erc7730Data := descriptor.value;

    calls := calls + [ConnectWallet(formattedPrivateKey, RpcUrl(args.testnet))];
    if replies.wallet.None? {
      return Failure(WalletSetupFailed), calls;
    }
    var address := replies.wallet.value;

    var currentSpaceId := args.spaceId;
    if !Truthy(currentSpaceId) {
      calls := calls + [CreateSpace(address, SmartContractMetadata, network)];
      currentSpaceId := replies.newSpace;
    }
    assert calls == SpaceCalls(args, formattedPrivateKey, address);
    if currentSpaceId.None? {
      return Failure(SpaceCreationFailed), calls;
    }
    PrepareRunReachesSpace(args, formattedPrivateKey, descriptor, pretty, replies, SchemaOf(graph.issued));
    outcome, calls := PublishStep(args, address, currentSpaceId.value, pretty(erc7730Data), replies, graph, calls);
  }

  /** Assembling the edit and publishing it to IPFS. */
  method PublishStep(args: PublishArgs, address: string, spaceId: string, descriptorText: string,
                     replies: Replies, graph: GraphClient, calls0: seq<ExternalCall>)
    returns (outcome: Result<PublishResult, PublishError>, calls: seq<ExternalCall>)
    modifies graph
    ensures var run := PublishInSpace(args, address, spaceId, descriptorText, replies, SchemaOf(old(graph.issued)), calls0);
      outcome == run.outcome && calls == run.calls && graph.issued == old(graph.issued) + run.minted
  {
    ghost var ids := SchemaOf(graph.issued);
    var contractEntityId, ops := AssembleMetadataOps(graph, args.contract, args.chainId, args.contractName, descriptorText);
    calls := calls0 + [PublishEdit(EditName(args.contractName), ops, address, NetworkOf(args.testnet))];
    if replies.cid.None? {
      return Failure(IpfsPublishFailed), calls;
    }
    SubmitEditKeepsMinted(args.testnet, spaceId, contractEntityId, replies.cid.value, replies, calls, IdList(ids));
    outcome, calls := SubmitStep(args.testnet, spaceId, contractEntityId, replies.cid.value, replies, calls);
  }

  /** The ids minted before the submission are carried through it unchanged; they do not affect its outcome or calls. */
  lemma SubmitEditKeepsMinted(testnet: bool, spaceId: string, entityId: string, cid: string,
                              replies: Replies, calls: seq<ExternalCall>, minted: seq<string>)
    ensures SubmitEdit(testnet, spaceId, entityId, cid, replies, calls, minted)
         == SubmitEdit(testnet, spaceId, entityId, cid, replies, calls, []).(minted := minted)
  {
  }

  /** Requesting the calldata for the published CID and sending the transaction. */
  method SubmitStep(testnet: bool, spaceId: string, entityId: string, cid: string,
                    replies: Replies, calls0: seq<ExternalCall>)
    returns (outcome: Result<PublishResult, PublishError>, calls: seq<ExternalCall>)
    ensures var run := SubmitEdit(testnet, spaceId, entityId, cid, replies, calls0, []);
      outcome == run.outcome && calls == run.calls
  {
    var apiOrigin := ApiOrigin(testnet);
    calls := calls0 + [PostCalldata(CalldataUrl(apiOrigin, spaceId), cid)];
    match replies.calldata {
      case NoResponse =>
        return Failure(CalldataRequestFailed), calls;
      case HttpError(status, statusText) =>
        return Failure(CalldataRejected(status, statusText)), calls;
      case BadBody =>
        return Failure(CalldataUnreadable), calls;
      case CalldataBody(to, data) =>
        calls := calls + [SendTransaction(to, 0, data)];
        if replies.txHash.None? {
          return Failure(TransactionFailed), calls;
        }
        outcome := Success(PublishResult(spaceId, entityId, cid, replies.txHash.value));
    }
  }
}
