# hardhat-clearsign knowledge-graph actions, modelled in Dafny

This project models the two Hardhat task actions of hardhat-clearsign that talk
to The Graph's GRC-20 knowledge graph.

- `publish-kg` (`publishKgAction`):
  - validates four required arguments;
  - picks the private key from the argument or the `PRIVATE_KEY` environment value, adds a missing `0x` and checks it against `/^0x[a-fA-F0-9]{64}$/`;
  - reads the ERC-7730 descriptor and sets up the smart-account wallet;
  - reuses the given space or creates a "Smart Contract Metadata" space;
  - builds one edit: four TEXT properties, a "Smart Contract Metadata" type over them, and one entity holding the contract address, chain id, contract name and pretty-printed descriptor;
  - publishes the edit to IPFS, asks the Hypergraph API for calldata for the CID, and sends a value-0 transaction.
- `fetch-kg` (`fetchKgAction`):
  - validates the contract address and chain id;
  - builds a "not found" record;
  - when a space id is given, queries that space and scans its entities for the first one holding both a "Contract Address" and a "Chain ID" pair equal to the arguments;
  - on a match, fills the record with the entity's id, name, contract name and ERC-7730 payload. The payload is parsed as JSON when it parses and kept as text otherwise.

Files and modules:

| file | module | contents |
|---|---|---|
| `wrappers.dfy` | `Wrappers` | `Option` and `Result` |
| `js_semantics.dfy` | `JsSemantics` | the JavaScript behaviour the actions rely on: truthiness of optional strings, `a \|\| b`, `String.prototype.trim` over the ECMAScript whitespace set, `Array.prototype.find` |
| `task_args.dfy` | `TaskArgs` | the ordered required-argument checks of both actions |
| `private_key.dfy` | `PrivateKey` | choosing, normalising and checking the private key |
| `hypergraph.dfy` | `Hypergraph` | networks, API origins, request URLs, property names, JSON values |
| `grc20.dfy` | `Grc20` | the graph client: a class whose `issued` field lists every id it has minted, with the three `create*` methods |
| `publish_kg.dfy` | `PublishKg` | the publish action |
| `fetch_kg.dfy` | `FetchKg` | the fetch action |

How the two actions are modelled:

- Publish, external calls. Every external effect is an `ExternalCall` appended to a trace. Its answer comes from a `Replies` value.
- Publish, pure description. `CheckArgs` gives the outcome of the checks that run before any external call. `PublishRun(args, CheckArgs(args, envKey), …, ids)` then describes the calls, the outcome and the ids minted.
- Publish, imperative code. `PublishKgAction` and its stage methods perform the same steps on a `GraphClient`. They are proved equal to `PublishRun`, with `ids` being the six ids the client mints next.
- Fetch. `FetchKgAction` is a method whose entity loop (`ScanEntities`) stops at the first match. It is proved equal to the pure `FetchRun`, which is defined through the recursive `FirstMatch`.

## Model

| member | source | states |
|---|---|---|
| JsSemantics.OrElse | plugin/actions/publish-kg.ts:38 | `a \|\| b` on optional strings is truthy iff either operand is; it is the first operand when that one is truthy and the second otherwise |
| JsSemantics.OrEmpty | plugin/actions/fetch-kg.ts:60 | `o \|\| ""` is non-empty exactly when `o` is truthy, and is then `o`'s string |
| JsSemantics.IsJsWhitespace | plugin/actions/publish-kg.ts:19 | defines the characters `trim()` removes: membership in `JsWhitespace`, the 25 ECMAScript WhiteSpace and LineTerminator characters; `TrimStart`, `TrimEnd`, `Trim` and `IsBlank` state what trimming does with them |
| JsSemantics.TrimStart | plugin/actions/publish-kg.ts:19 | the result is a suffix of the input and the dropped prefix is all whitespace; it is empty iff the input is all whitespace, and otherwise starts on a non-whitespace character |
| JsSemantics.TrimEnd | plugin/actions/publish-kg.ts:19 | the result is a prefix of the input and the dropped suffix is all whitespace; it is empty iff the input is all whitespace, and otherwise ends on a non-whitespace character |
| JsSemantics.Trim | plugin/actions/publish-kg.ts:19 | `trim()` is empty iff the input is all whitespace; otherwise it starts and ends on a non-whitespace character |
| JsSemantics.TrimIsStartThenEnd | plugin/actions/publish-kg.ts:19 | trimming both ends equals trimming the start and then the end |
| JsSemantics.TrimStartThenEndPiece | plugin/actions/publish-kg.ts:19 | trimming the start and then the end of a string leaves a piece of it with only whitespace on either side |
| JsSemantics.TrimDropsOnlyWhitespace | plugin/actions/publish-kg.ts:19 | `trim()` returns a contiguous piece of its input, with only whitespace before and after that piece |
| JsSemantics.IsBlank | plugin/actions/publish-kg.ts:19-30 | `!s \|\| s.trim() === ""` holds iff every character of `s` is JavaScript whitespace |
| JsSemantics.Find | plugin/actions/fetch-kg.ts:81-86 | `find` returns nothing iff no element passes, and otherwise the element at the first passing index |
| JsSemantics.FindAt | plugin/actions/fetch-kg.ts:94-102 | when the element at `k` passes and none before it does, `find` returns that element |
| TaskArgs.FirstBlank | plugin/actions/publish-kg.ts:18-30 | the position of the first blank argument: every earlier one is non-blank, and the one at that position is blank |
| TaskArgs.FirstMissing | plugin/actions/publish-kg.ts:18-30 | no error iff no argument is blank; otherwise the error of a blank argument with only non-blank ones before it |
| TaskArgs.FirstMissingIgnoresLater | plugin/actions/publish-kg.ts:18-30 | once a check fails, checks appended after it do not change the error |
| TaskArgs.PublishValidationOrder | plugin/actions/publish-kg.ts:18-30 | publish reports a blank contract, then chain id, then contract name, then descriptor path, and nothing when all four are present |
| TaskArgs.FetchValidationOrder | plugin/actions/fetch-kg.ts:25-31 | fetch reports a blank contract, then a blank chain id, and nothing when both are present |
| TaskArgs.SharedChecksAgree | plugin/actions/fetch-kg.ts:25-31 | when fetch rejects the contract or chain id, publish rejects the same arguments with the same error |
| Hypergraph.NetworkOf | plugin/actions/publish-kg.ts:77 | the network is TESTNET exactly when the `testnet` flag is set |
| Hypergraph.ApiOrigin | plugin/actions/publish-kg.ts:163-165 | the API origin is the testnet origin iff `testnet`, and the mainnet origin iff not |
| Hypergraph.RpcUrl | plugin/actions/publish-kg.ts:64-68 | an RPC override is passed to the wallet client exactly on testnet, and it is the testnet RPC URL |
| Hypergraph.SpaceUrl | plugin/actions/fetch-kg.ts:71 | defines the space URL `${apiOrigin}/space/${spaceId}`; `FetchKg.FetchKgAction` and `FetchRunSteps` state when it is queried |
| Hypergraph.CalldataUrl | plugin/actions/publish-kg.ts:167 | defines the calldata URL `${apiOrigin}/space/${spaceId}/edit/calldata`; `SuccessfulRun` and `PublishInSpaceExpected` state the space it gets, and `NetworkFollowsFlag` the origin |
| Grc20.NextId | plugin/actions/publish-kg.ts:89-92 | a newly minted id is none of the ids issued before |
| Grc20.Mint | plugin/actions/publish-kg.ts:89-124 | `n` successive create calls mint `n` ids |
| Grc20.MintFresh | plugin/actions/publish-kg.ts:89-124 | the ids of successive create calls are new and pairwise distinct |
| Grc20.GraphClient.constructor | plugin/actions/publish-kg.ts:34 | a new client has issued no id |
| Grc20.GraphClient.CreateProperty | plugin/actions/publish-kg.ts:89-92 | mints the next id, records it as issued, and returns one op creating the named property with that id |
| Grc20.GraphClient.CreateType | plugin/actions/publish-kg.ts:117-120 | mints the next id, records it as issued, and returns one op creating the type with its property list |
| Grc20.GraphClient.CreateEntity | plugin/actions/publish-kg.ts:124-146 | mints the next id, records it as issued, and returns one op creating the entity with its name, description, types and values |
| PrivateKey.ChooseKey | plugin/actions/publish-kg.ts:38-41 | a key is chosen iff the argument or the environment value is truthy; the argument wins when it is truthy |
| PrivateKey.Normalize | plugin/actions/publish-kg.ts:44 | the result starts with `0x`; it is the input iff the input already did, and otherwise `0x` followed by the input |
| PrivateKey.NormalizeIdempotent | plugin/actions/publish-kg.ts:44 | normalising twice is normalising once |
| PrivateKey.MatchHexRun | plugin/actions/publish-kg.ts:45 | defines the left-to-right match of `[a-fA-F0-9]{n}$`; `HexRunIff` states what it accepts |
| PrivateKey.MatchesKeyPattern | plugin/actions/publish-kg.ts:45 | defines `/^0x[a-fA-F0-9]{64}$/.test(k)`: the literal `0x`, then a 64-digit hex run; `KeyPatternIff` states what it accepts |
| PrivateKey.HexRunIff | plugin/actions/publish-kg.ts:45 | the `[a-fA-F0-9]{n}$` matcher accepts exactly strings of `n` hex digits |
| PrivateKey.KeyPatternIff | plugin/actions/publish-kg.ts:45 | `/^0x[a-fA-F0-9]{64}$/` accepts exactly `0x` followed by 64 hex digits |
| PrivateKey.ResolveKey | plugin/actions/publish-kg.ts:37-47 | fails with "key required" iff neither key is truthy; on success the key is well formed and is the chosen key normalised |
| PrivateKey.NormalizedKeyAccepted | plugin/actions/publish-kg.ts:44-47 | a chosen key passes iff it is `0x` and 64 hex digits, or 64 bare hex digits |
| PrivateKey.ResolveKeySucceedsIff | plugin/actions/publish-kg.ts:37-47 | the key step succeeds iff a key is chosen and has one of those two shapes |
| PrivateKey.UpperCasePrefixRejected | plugin/actions/publish-kg.ts:44-47 | a key written with an upper-case `0X` prefix gains a second prefix and is rejected as malformed |
| PublishKg.SchemaOf | plugin/actions/publish-kg.ts:89-124 | the six ids of one publish, named by role, are the next six ids the client mints |
| PublishKg.SchemaIdsFresh | plugin/actions/publish-kg.ts:89-124 | the six ids of one publish are distinct and were not issued before |
| PublishKg.MintSix | plugin/actions/publish-kg.ts:89-124 | six successive create calls mint exactly the ids `Mint` lists, in order |
| PublishKg.EntityName | plugin/actions/publish-kg.ts:125 | defines the entity name `${contractName} (${chainId}:${contract})`; it names the entity op of `MetadataOps`, which `SuccessfulRun` shows is the op list published |
| PublishKg.EntityDescription | plugin/actions/publish-kg.ts:126 | defines the entity description `ERC-7730 metadata for ${contractName} contract on chain ${chainId}`; it describes the entity op of `MetadataOps`, as `EntityName` names it |
| PublishKg.EditName | plugin/actions/publish-kg.ts:154 | defines the edit name `Smart Contract Metadata: ${contractName}`; `PublishInSpaceExpected` and `SuccessfulRun` state that the IPFS publish gets it |
| PublishKg.MetadataOps | plugin/actions/publish-kg.ts:86-147 | defines the op list one publish assembles: four TEXT properties, the type listing them, the entity with one value per property; `MetadataOpsWellFormed`, `MetadataOpsProperties`, `MetadataOpsReadBack` and `PublishedEditFresh` state its properties, and `AssembleMetadataOps` is proved to build it |
| PublishKg.MetadataOpsWellFormed | plugin/actions/publish-kg.ts:85-147 | with distinct ids the edit is well formed: ids are unique, every property a type lists is created before the type, and the entity has one earlier type whose properties its values fill in order |
| PublishKg.PropertyNamesDistinct | plugin/actions/publish-kg.ts:89-113 | the four property names differ from one another |
| PublishKg.MetadataOpsProperties | plugin/actions/publish-kg.ts:88-114 | the first four ops create the four TEXT properties, named in order, with the first four ids |
| PublishKg.FindsProperty | plugin/actions/publish-kg.ts:88-114 | looking up the `n`th property name in the edit finds the `n`th op |
| PublishKg.FindsValue | plugin/actions/publish-kg.ts:128-145 | looking up the `n`th property id among the entity's values finds the `n`th value |
| PublishKg.ReadBackAt | plugin/actions/publish-kg.ts:88-147 | reading the edit back under the `n`th property name gives the entity's `n`th value |
| PublishKg.MetadataOpsReadBack | plugin/actions/publish-kg.ts:124-146 | reading the edit back by property name gives the contract address, chain id, contract name and serialised descriptor it was built from |
| PublishKg.AssembleMetadataOps | plugin/actions/publish-kg.ts:85-147 | pushing the ops of the six create calls yields the edit over the client's next six ids, records those ids as issued, and returns the entity's id |
| PublishKg.CheckArgs | plugin/actions/publish-kg.ts:18-47 | defines the checks made before any external call: the four required arguments in order, then the key; `ChecksInOrder` states its outcome in closed form and `FailedCheckStopsRun` what a failure does |
| PublishKg.PublishRun | plugin/actions/publish-kg.ts:49-204 | defines the whole run after the checks: outcome, external calls in order, ids minted; `PublishSucceedsIff`, `SuccessfulRun`, `RunMakesExpectedCalls` and `NetworkFollowsFlag` state its properties, and `PublishKgAction` is proved equal to it |
| PublishKg.PrepareRun | plugin/actions/publish-kg.ts:49-83 | defines reading the descriptor, the wallet setup and the space choice; `PrepareRunReachesSpace`, `PrepareRunSucceedsIff` and `PrepareRunExpected` state its properties, and `PrepareStep` is proved equal to it |
| PublishKg.SpaceCalls | plugin/actions/publish-kg.ts:49-83 | defines the calls made before publishing: read, wallet, and `createSpace` only without a space id; `PrepareRunReachesSpace` and `SpaceSelection` state it |
| PublishKg.PublishInSpace | plugin/actions/publish-kg.ts:85-158 | defines assembling and publishing the edit, then the submission; `PublishInSpaceExpected` and `PublishedEditFresh` state its properties, and `PublishStep` is proved equal to it |
| PublishKg.SubmitEdit | plugin/actions/publish-kg.ts:162-204 | defines the calldata request and the transaction; `NoTransactionWithoutCalldata` and `CalldataRejectedStopsRun` state its failures, and `SubmitStep` is proved equal to it |
| PublishKg.ChecksInOrder | plugin/actions/publish-kg.ts:18-47 | the checks fail on the first blank argument, then on a missing key, then on a malformed chosen key; otherwise they yield the chosen key with `0x` added when missing |
| PublishKg.ChosenSpace | plugin/actions/publish-kg.ts:71-83 | the run uses the given space id when it is truthy, otherwise the created space's id |
| PublishKg.FailedCheckStopsRun | plugin/actions/publish-kg.ts:18-47 | a blank argument, a missing key or a malformed key makes the run fail with no external call and no id minted |
| PublishKg.PrepareRunReachesSpace | plugin/actions/publish-kg.ts:49-83 | once the descriptor is read, the wallet set up and a space chosen, the run continues in that space after the calls made so far |
| PublishKg.PublishSucceedsIff | plugin/actions/publish-kg.ts:15-209 | a run succeeds iff the checks pass and every external call answers: descriptor, wallet, space, CID, calldata body, transaction hash |
| PublishKg.PrepareRunSucceedsIff | plugin/actions/publish-kg.ts:49-204 | after the checks, the run succeeds iff every external call answers |
| PublishKg.SuccessfulRun | plugin/actions/publish-kg.ts:49-204 | a successful run makes these calls: descriptor read, wallet, space creation only without an id, edit published, calldata requested, one value-0 transaction. It mints the six ids and returns the chosen space, the entity id, the CID and the hash |
| PublishKg.SpaceSelection | plugin/actions/publish-kg.ts:70-83 | a successful run reports the given space id and creates no space when one is given; otherwise it creates a space and reports the created space's id |
| PublishKg.PublishInSpaceExpected | plugin/actions/publish-kg.ts:151-190 | the publish, calldata and transaction calls carry the assembled edit, the chosen space's calldata URL with the CID, and the calldata reply's target and data |
| PublishKg.PrepareRunExpected | plugin/actions/publish-kg.ts:49-83 | the descriptor, wallet and space calls carry the descriptor path, the checked key with the testnet override, and the wallet address and network |
| PublishKg.RunMakesExpectedCalls | plugin/actions/publish-kg.ts:15-209 | whatever the answers, every call of a run carries the arguments the action's arguments and the earlier answers determine |
| PublishKg.WalletGetsCheckedKey | plugin/actions/publish-kg.ts:37-68 | the wallet is only set up with the chosen key normalised, which is well formed |
| PublishKg.NoTransactionWithoutCalldata | plugin/actions/publish-kg.ts:175-190 | without a calldata body no transaction is sent and the run fails |
| PublishKg.CalldataRejectedStopsRun | plugin/actions/publish-kg.ts:175-177 | a non-ok calldata response ends the run with its status and status text, right after the calldata request |
| PublishKg.NetworkFollowsFlag | plugin/actions/publish-kg.ts:58-77 | in every call the RPC override, the space and edit network, and the calldata API origin are testnet ones iff `testnet` is set |
| PublishKg.PublishedEditFresh | plugin/actions/publish-kg.ts:85-158 | whatever the answers, every edit published is well formed and creates only ids not issued before the run |
| PublishKg.PublishKgAction | plugin/actions/publish-kg.ts:15-209 | the action returns the outcome and makes the calls `PublishRun` describes, and the client has then issued exactly the ids the run minted |
| PublishKg.PrepareStep | plugin/actions/publish-kg.ts:49-83 | reading, wallet setup and space selection behave as `PrepareRun` describes |
| PublishKg.PublishStep | plugin/actions/publish-kg.ts:85-158 | assembling and publishing the edit behaves as `PublishInSpace` describes, minting the client's next six ids |
| PublishKg.SubmitStep | plugin/actions/publish-kg.ts:162-204 | the calldata request and the transaction behave as `SubmitEdit` describes |
| FetchKg.HasPair | plugin/actions/fetch-kg.ts:81-86 | the pair search succeeds iff the exact property and value pair is among the entity's values |
| FetchKg.Matches | plugin/actions/fetch-kg.ts:81-88 | defines the match: both exact pairs are present; `HasPair` and `FirstMatch` state it |
| FetchKg.FirstMatch | plugin/actions/fetch-kg.ts:80-111 | nothing iff no entity matches; otherwise a matching entity with no match before it |
| FetchKg.FirstValue | plugin/actions/fetch-kg.ts:94-97 | nothing iff no pair has the property; otherwise the value of the first pair that has it |
| FetchKg.PayloadOf | plugin/actions/fetch-kg.ts:99-107 | the payload is `NullPayload` iff the value is absent or empty. It is the parsed document iff the text parses; the text `null` parses to the JSON null document. Otherwise it is the raw non-empty text |
| FetchKg.InitialMetadata | plugin/actions/fetch-kg.ts:53-62 | defines the "not found" record: empty id, name and contract name, null payload, the inputs, the space id or `""`; `NoSpaceNoSearch`, `FetchKeepsInputs` and `FoundIffSomeMatch` state when it is returned |
| FetchKg.Matched | plugin/actions/fetch-kg.ts:88-107 | defines the record filled in from a matching entity; `FoundIsFirstMatch` states what it carries |
| FetchKg.SearchSpace | plugin/actions/fetch-kg.ts:64-124 | defines what a space reply contributes: a scan of the entity list, otherwise the record unchanged; `FoundIffSomeMatch` states it |
| FetchKg.ScanResult | plugin/actions/fetch-kg.ts:78-111 | defines the record after the scan: filled in from the first match, or unchanged; `ScanEntities` is proved equal to it and `FoundIsFirstMatch` states it |
| FetchKg.FetchRun | plugin/actions/fetch-kg.ts:22-173 | defines the whole fetch: the two checks, then the initial record searched in the given space; `FetchValidation`, `FetchRunSteps`, `FoundIffSomeMatch` and `FoundIsFirstMatch` state its properties, and `FetchKgAction` is proved equal to it |
| FetchKg.FetchQuery | plugin/actions/fetch-kg.ts:64-71 | defines the URL queried, if any: the space URL exactly when the checks pass and a space id is given; `FetchRunSteps`, `FetchValidation` and `NoSpaceNoSearch` state it |
| FetchKg.ScanEntities | plugin/actions/fetch-kg.ts:79-111 | the loop leaves the record filled in from the first matching entity, or untouched when none matches |
| FetchKg.FetchKgAction | plugin/actions/fetch-kg.ts:22-173 | the action returns what `FetchRun` describes and queries the URL `FetchQuery` gives |
| FetchKg.FetchRunSteps | plugin/actions/fetch-kg.ts:25-71 | a blank contract fails first, then a blank chain id, before any query; otherwise the space is queried exactly when a space id is given |
| FetchKg.FirstMatchIgnoresLater | plugin/actions/fetch-kg.ts:109 | the loop stops at the first match: entities after it do not change the result |
| FetchKg.FirstMatchSkipsNonMatching | plugin/actions/fetch-kg.ts:80-111 | non-matching entities in front only shift the position of the first match |
| FetchKg.FirstMatchSkipsOne | plugin/actions/fetch-kg.ts:80-111 | one non-matching entity in front shifts the first match by one place, and leaves "no match" as it is |
| FetchKg.FetchValidation | plugin/actions/fetch-kg.ts:25-31 | a blank contract fails with the contract error; a present contract with a blank chain id fails with the chain id error; the run fails iff one of the two is blank, and a failed run queries nothing |
| FetchKg.NoSpaceNoSearch | plugin/actions/fetch-kg.ts:44-64 | without a space id nothing is queried and the record stays the initial one with an empty space id |
| FetchKg.FetchKeepsInputs | plugin/actions/fetch-kg.ts:53-62 | the record's contract address and chain id are the inputs; its space id is the given one, and empty iff none is given |
| FetchKg.FoundIffSomeMatch | plugin/actions/fetch-kg.ts:64-124 | the record is found iff a space id is given, the space returned an entity list, and some entity matches; otherwise it is the initial record |
| FetchKg.FoundIsFirstMatch | plugin/actions/fetch-kg.ts:88-110 | a found record carries the id, name, contract name and ERC-7730 payload of the first matching entity |

## Left out

- Console output, the emoji progress lines and the `json` presentation switch of `fetch-kg` are not modelled. They do not affect what either action returns or calls.
- Reading the descriptor file and `JSON.parse` of it are one `descriptor: Option<Json>` parameter: `None` when reading or parsing throws. `JSON.stringify(…, null, 2)` is the `pretty` parameter.
- `JSON.parse` in `fetch-kg` is the `parse` parameter, with `None` where it throws.
- `process.env.PRIVATE_KEY` is the `envKey` parameter.
- The network is modelled by its answers only. This covers `Graph.createSpace`, `Ipfs.publishEdit`, both `fetch` calls, `result.json()` and `sendTransaction`. Timing, retries and concurrency are not modelled.
- PublishKg.PublishKgAction: the dynamic imports of the graph library and of viem (publish-kg.ts:34-35) are not modelled. They run after the argument checks and before the key checks; an import that throws would end the run with its own error before `KeyRejected(KeyRequired)` or `KeyRejected(InvalidKeyFormat)`, and the model has no such outcome.
- PublishKg.PublishKgAction: `privateKeyToAccount` and `getSmartAccountWalletClient` are merged into one wallet step. Its answer is the account address, or nothing when either throws.
- Grc20.NextId: the library's ids are random. Here a client mints an id longer than every id it has issued. Only the freshness the action relies on is modelled, not the id format.
- Grc20.GraphClient.CreateProperty: each create call returns a single op recording its arguments. The library's real op encoding is not modelled.
- JSON numbers are integers in `Hypergraph.Json`. Floating point is not modelled.
- FetchKg.FetchKgAction: the response shape is modelled as a list of entities with `id`, optional `name` and `values`. An entity without `values` reads as having an empty list. A response that makes the scan throw before any entity matches is the `Unreachable` reply. The record is then unchanged, as after the source's catch (fetch-kg.ts:116).
- FetchKg.FetchKgAction: a throw after a match is not modelled, because entity values here are never null. In the source, an entity whose `values` hold a `null` after its matching pairs makes the `find` at fetch-kg.ts:94 (or :100) throw. That happens after fetch-kg.ts:89-91 set `found`, `id` and `name`. The catch at fetch-kg.ts:116 then keeps this partial record: found, with the entity's id and name, an empty contract name and a null payload.
- FetchKg.PayloadOf: a payload whose text is `null` is `Parsed(JNull)`. The source stores JavaScript `null` for it, the same value it stores for an absent text. The model keeps the two cases apart.
- FetchKg.FoundIffSomeMatch: a `spaceData.entities` value that is truthy but not an array is not modelled.
- PublishKg.ChosenSpace: a `createSpace` answer with an empty id is kept as the chosen space, as the source does. It is not rejected.
- There is no lemma that `fetch-kg` finds what `publish-kg` published. The published entity stores property ids as the keys of its values (publish-kg.ts:130-142). The fetch scan compares those keys with property names (fetch-kg.ts:82-85). Whether the two ever agree depends on the remote API, which is not part of this model.
- The task definitions (`plugin/tasks/*.ts`), the Solidity hook handler, `generate-7730`, the plugin index and the Ignition module are not part of this model.
