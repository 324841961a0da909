/**
 * What both actions share about the remote knowledge graph: the network
 * labels, the API origins, the request paths, the names of the four
 * metadata properties, and the shapes of property values and JSON
 * documents.
 */
module Hypergraph {
  import opened Wrappers

  datatype Network = Mainnet | Testnet

  const MainnetOrigin: string := "https://hypergraph-v2.up.railway.app"
  const TestnetOrigin: string := "https://hypergraph-v2-testnet.up.railway.app"
  const TestnetRpcUrl: string := "https://sepolia.base.org"

  /** `testnet ? "TESTNET" : "MAINNET"` */
  function NetworkOf(testnet: bool): (n: Network)
    ensures n == Testnet <==> testnet
  {
    if testnet then Testnet else Mainnet
  }

  /** The API origin: the testnet one exactly when the `testnet` flag is set. */
  function ApiOrigin(testnet: bool): (origin: string)
    ensures origin == TestnetOrigin <==> testnet
    ensures origin == MainnetOrigin <==> !testnet
  {
    assert TestnetOrigin[21] != MainnetOrigin[21];
    if testnet then TestnetOrigin else MainnetOrigin
  }

  /** The RPC override passed to the wallet client: only on testnet. */
  function RpcUrl(testnet: bool): (url: Option<string>)
    ensures url.Some? <==> testnet
    ensures testnet ==> url == Some(TestnetRpcUrl)
  {
    if testnet then Some(TestnetRpcUrl) else None
  }

  /** `${apiOrigin}/space/${spaceId}` */
  function SpaceUrl(origin: string, spaceId: string): string {
    origin + "/space/" + spaceId
  }

  /** `${apiOrigin}/space/${spaceId}/edit/calldata` */
  function CalldataUrl(origin: string, spaceId: string): string {
    SpaceUrl(origin, spaceId) + "/edit/calldata"
  }

  /** The names of the four TEXT properties of a "Smart Contract Metadata" entity. */
  const ContractAddressProperty: string := "Contract Address"
  const ChainIdProperty: string := "Chain ID"
  const ContractNameProperty: string := "Contract Name"
  const Erc7730JsonProperty: string := "ERC-7730 JSON"
  const SmartContractMetadata: string := "Smart Contract Metadata"

  /** One `{ property, value }` pair of an entity. */
  datatype PropertyValue = PropertyValue(property: string, value: string)

  /** A parsed JSON document (numbers are restricted to integers in this model). */
  datatype Json =
    | JNull
    | JBool(b: bool)
    | JNumber(n: int)
    | JString(s: string)
    | JArray(items: seq<Json>)
    | JObject(members: seq<(string, Json)>)
}
