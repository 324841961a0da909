/**
 * Validation of the required string arguments of the `publish-kg` and
 * `fetch-kg` tasks. Every option defaults to `""`, so a missing argument
 * is a blank string; the checks run in a fixed order and the first blank
 * argument decides the error that is thrown.
 */
module TaskArgs {
  import opened Wrappers
  import opened JsSemantics

  /** The errors thrown for a missing required argument. */
  datatype ArgError =
    | ContractRequired      // "Contract address is required. Use --contract <address>"
    | ChainIdRequired       // "Chain ID is required. Use --chain-id <chainId>"
    | ContractNameRequired  // "Contract name is required. Use --contract-name <name>"
    | Erc7730FileRequired   // "ERC-7730 file path is required. Use --erc7730-file <path>"

  /** One `if (!x || x.trim() === "") throw ...` check. */
  datatype RequiredArg = RequiredArg(value: string, ifMissing: ArgError)

  /** The position of the first blank argument at or after `from`, or `|checks|` when none is blank. */
  function FirstBlank(checks: seq<RequiredArg>, from: nat): (k: nat)
    requires from <= |checks|
    ensures from <= k <= |checks|
    ensures forall j :: from <= j < k ==> !IsBlank(checks[j].value)
    ensures k < |checks| ==> IsBlank(checks[k].value)
    decreases |checks| - from
  {
    if from == |checks| || IsBlank(checks[from].value) then from else FirstBlank(checks, from + 1)
  }

  /**
   * Runs the checks in order and reports the error of the first blank
   * argument; nothing after it is looked at.
   */
  function FirstMissing(checks: seq<RequiredArg>): (r: Option<ArgError>)
    ensures r.None? <==> forall i :: 0 <= i < |checks| ==> !IsBlank(checks[i].value)
    ensures r.Some? ==>
      exists i :: 0 <= i < |checks| && IsBlank(checks[i].value) && r.value == checks[i].ifMissing
        && forall j :: 0 <= j < i ==> !IsBlank(checks[j].value)
  {
    var k := FirstBlank(checks, 0);
    if k < |checks| then Some(checks[k].ifMissing) else None
  }

  /** Only the checks up to the first blank argument influence the outcome. */
  lemma FirstMissingIgnoresLater(checks: seq<RequiredArg>, later: seq<RequiredArg>)
    requires FirstMissing(checks).Some?
    ensures FirstMissing(checks + later) == FirstMissing(checks)
  {
    var all := checks + later;
    var k, k' := FirstBlank(checks, 0), FirstBlank(all, 0);
    assert k < |checks| && IsBlank(checks[k].value);
    assert forall j :: 0 <= j < |checks| ==> all[j] == checks[j];
    assert k' == k;
    assert FirstMissing(all) == Some(all[k'].ifMissing);
  }

  /** The four checks of `publish-kg`, in the order the action runs them. */
  function PublishChecks(contract: string, chainId: string, contractName: string, erc7730File: string): seq<RequiredArg> {
    [ RequiredArg(contract, ContractRequired), RequiredArg(chainId, ChainIdRequired),
      RequiredArg(contractName, ContractNameRequired), RequiredArg(erc7730File, Erc7730FileRequired) ]
  }

  /** The two checks of `fetch-kg`, in the order the action runs them. */
  function FetchChecks(contract: string, chainId: string): seq<RequiredArg> {
    [ RequiredArg(contract, ContractRequired), RequiredArg(chainId, ChainIdRequired) ]
  }

  /** `publish-kg` rejects a blank contract address first, then chain id, then contract name, then descriptor path. */
  lemma PublishValidationOrder(contract: string, chainId: string, contractName: string, erc7730File: string)
    ensures FirstMissing(PublishChecks(contract, chainId, contractName, erc7730File)) ==
      if AllWhitespace(contract) then Some(ContractRequired)
      else if AllWhitespace(chainId) then Some(ChainIdRequired)
      else if AllWhitespace(contractName) then Some(ContractNameRequired)
      else if AllWhitespace(erc7730File) then Some(Erc7730FileRequired)
      else None
  {
    var checks := PublishChecks(contract, chainId, contractName, erc7730File);
    var k := FirstBlank(checks, 0);
    if AllWhitespace(contract) {
      assert IsBlank(checks[0].value);
    } else if AllWhitespace(chainId) {
      assert !IsBlank(checks[0].value) && IsBlank(checks[1].value);
    } else if AllWhitespace(contractName) {
      assert !IsBlank(checks[1].value) && IsBlank(checks[2].value);
    } else if AllWhitespace(erc7730File) {
      assert !IsBlank(checks[2].value) && IsBlank(checks[3].value);
    } else {
      assert !IsBlank(checks[3].value);
    }
  }

  /** `fetch-kg` rejects a blank contract address first, then a blank chain id. */
  lemma FetchValidationOrder(contract: string, chainId: string)
    ensures FirstMissing(FetchChecks(contract, chainId)) ==
      if AllWhitespace(contract) then Some(ContractRequired)
      else if AllWhitespace(chainId) then Some(ChainIdRequired)
      else None
  {
    var checks := FetchChecks(contract, chainId);
    var k := FirstBlank(checks, 0);
    if AllWhitespace(contract) {
      assert IsBlank(checks[0].value);
    } else if AllWhitespace(chainId) {
      assert !IsBlank(checks[0].value) && IsBlank(checks[1].value);
    } else {
      assert !IsBlank(checks[1].value);
    }
  }

  /** Both tasks report a blank contract address or chain id with the same error. */
  lemma SharedChecksAgree(contract: string, chainId: string, contractName: string, erc7730File: string)
    requires FirstMissing(FetchChecks(contract, chainId)).Some?
    ensures FirstMissing(PublishChecks(contract, chainId, contractName, erc7730File)) == FirstMissing(FetchChecks(contract, chainId))
  {
    assert PublishChecks(contract, chainId, contractName, erc7730File)
      == FetchChecks(contract, chainId) + [RequiredArg(contractName, ContractNameRequired), RequiredArg(erc7730File, Erc7730FileRequired)];
    FirstMissingIgnoresLater(FetchChecks(contract, chainId),
      [RequiredArg(contractName, ContractNameRequired), RequiredArg(erc7730File, Erc7730FileRequired)]);
  }
}
