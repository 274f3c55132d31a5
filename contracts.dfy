/** Contract configuration: the four addresses taken from the environment,
    the configured check, the input types of the contract functions the hooks
    call, and the hex encoding of commitment strings as Solidity `bytes`. */
module Contracts {
  import opened Common
  import Utf8
  import Hex

  /** The four `NEXT_PUBLIC_*_ADDRESS` environment values. */
  datatype Env = Env(nft: Option<string>, fractional: Option<string>, verifier: Option<string>, core: Option<string>)

  datatype Addresses = Addresses(nft: string, fractional: string, verifier: string, core: string)

  /** `process.env.X || ""`: an unset value and an empty one both give `""`. */
  function AddressOr(v: Option<string>): (r: string)
    ensures r == "" <==> v.None? || v.value == ""
    ensures r != "" ==> v == Some(r)
  {
    if v.Some? then v.value else ""
  }

  function Resolve(env: Env): (r: Addresses)
    ensures r.nft == AddressOr(env.nft) && r.fractional == AddressOr(env.fractional)
    ensures r.verifier == AddressOr(env.verifier) && r.core == AddressOr(env.core)
  {
    Addresses(AddressOr(env.nft), AddressOr(env.fractional), AddressOr(env.verifier), AddressOr(env.core))
  }

  /** `isContractsConfigured()`: both the deed NFT and the core contract have
      an address. */
  predicate IsContractsConfigured(a: Addresses)
  {
    a.nft != "" && a.core != ""
  }

  /** Configured exactly when both environment values are set and non-empty. */
  lemma ConfiguredFromEnv(env: Env)
    ensures IsContractsConfigured(Resolve(env)) <==>
      env.nft.Some? && env.nft.value != "" && env.core.Some? && env.core.value != ""
  {
  }

  /** The fractional-token and verifier addresses play no part in the check. */
  lemma ConfiguredIgnoresOthers(a: Addresses, fractional: string, verifier: string)
    ensures IsContractsConfigured(a.(fractional := fractional, verifier := verifier)) == IsContractsConfigured(a)
  {
  }

  /** The Solidity types of the inputs that occur in the called functions. */
  datatype AbiType = AbiString | AbiBytes | AbiAddress | AbiUint256

  datatype AbiFunction = AbiFunction(name: string, inputs: seq<AbiType>, payable: bool)

  /** `StrataDeedNFT.mintPropertyDeed(string propertyId, string metadataURI,
      bytes privateCommitment, address to)`. */
  const MintPropertyDeed: AbiFunction :=
    AbiFunction("mintPropertyDeed", [AbiString, AbiString, AbiBytes, AbiAddress], false)

  /** `StrataDeedCore.createProperty(string, string, bytes, address owner)`. */
  const CreateProperty: AbiFunction :=
    AbiFunction("createProperty", [AbiString, AbiString, AbiBytes, AbiAddress], false)

  /** `StrataDeedCore.fractionalizeProperty(uint256 deedTokenId, string tokenName,
      string tokenSymbol, uint256 totalShares, uint256 fundingCap)`. */
  const FractionalizeProperty: AbiFunction :=
    AbiFunction("fractionalizeProperty", [AbiUint256, AbiString, AbiString, AbiUint256, AbiUint256], false)

  /** `FractionalDeedToken.depositEscrow()`, the one payable function called. */
  const DepositEscrow: AbiFunction := AbiFunction("depositEscrow", [], true)

  /** An argument as the hooks pass it; `ArgUndefined` is a JavaScript
      `undefined` forced to an address type by a cast. */
  datatype Arg =
    | ArgString(s: string)
    | ArgBytes(hex: string)
    | ArgAddress(addr: string)
    | ArgUint(n: int)
    | ArgUndefined

  const Uint256Bound: int := 0x1_0000_0000_0000_0000_0000_0000_0000_0000_0000_0000_0000_0000_0000_0000_0000_0000

  /** Whether an argument can be ABI-encoded as the given type. */
  predicate Conforms(a: Arg, t: AbiType)
  {
    match t
    case AbiString => a.ArgString?
    case AbiBytes => a.ArgBytes? && Hex.Decode0x(a.hex).Some?
    case AbiAddress => a.ArgAddress?
    case AbiUint256 => a.ArgUint? && 0 <= a.n < Uint256Bound
  }

  predicate ArgsConform(args: seq<Arg>, f: AbiFunction)
  {
    |args| == |f.inputs| && forall i :: 0 <= i < |args| ==> Conforms(args[i], f.inputs[i])
  }

  /** One `writeContract` request. */
  datatype WriteRequest = WriteRequest(target: string, fn: AbiFunction, args: seq<Arg>, value: int)

  /** How a write ends: with a transaction hash or with an error. */
  datatype WriteOutcome = Submitted(hash: string) | Failed(message: string)

  /** The state of one `useWriteContract()` instance: the hash of the last
      write (`data`), whether one is pending, its error message, and every
      request issued so far. */
  datatype WriteState = WriteState(data: Option<string>, isPending: bool, error: Option<string>,
                                   requests: seq<WriteRequest>)

  const IdleWrite: WriteState := WriteState(None, false, None, [])

  /** `writeContract(request)`: the request is recorded and pending, and the
      previous hash and error are cleared. Nothing is thrown. */
  function Issue(w: WriteState, request: WriteRequest): (r: WriteState)
    ensures r.requests == w.requests + [request] && r.isPending
    ensures r.data.None? && r.error.None?
  {
    WriteState(None, true, None, w.requests + [request])
  }

  /** The pending write settles with a hash or with an error. */
  function Settle(w: WriteState, outcome: WriteOutcome): (r: WriteState)
    ensures !r.isPending && r.requests == w.requests
    ensures outcome.Submitted? ==> r.data == Some(outcome.hash) && r.error.None?
    ensures outcome.Failed? ==> r.data.None? && r.error == Some(outcome.message)
  {
    match outcome
    case Submitted(h) => WriteState(Some(h), false, None, w.requests)
    case Failed(m) => WriteState(None, false, Some(m), w.requests)
  }

  /** After a write is issued and settles, the hash a caller can read is the
      settled one, never the one held when the write was issued. */
  lemma IssueThenSettle(w: WriteState, request: WriteRequest, outcome: WriteOutcome)
    ensures Settle(Issue(w, request), outcome).requests == w.requests + [request]
    ensures Settle(Issue(w, request), outcome).data == (if outcome.Submitted? then Some(outcome.hash) else None)
  {
  }

  /** The commitment string as Solidity `bytes`: ``0x`` and two lower-case
      hex digits for each UTF-8 byte (`TextEncoder`, then
      `toString(16).padStart(2, "0")`, joined). */
  function CommitmentBytes(commitment: string): (r: string)
    ensures |r| == 2 + 2 * |Utf8.Encode(commitment)|
    ensures Hex.Decode0x(r) == Some(Utf8.Encode(commitment))
  {
    Hex.DecodeEncode0x(Utf8.Encode(commitment));
    Hex.Encode0x(Utf8.Encode(commitment))
  }

  /** Different commitment strings give different `bytes`. */
  lemma CommitmentBytesInjective(c1: string, c2: string)
    requires CommitmentBytes(c1) == CommitmentBytes(c2)
    ensures c1 == c2
  {
    Utf8.EncodeInjective(c1, c2);
  }

  /** The shapes of the four called functions' argument lists. */
  lemma CalledSignatures()
    ensures MintPropertyDeed.inputs == CreateProperty.inputs == [AbiString, AbiString, AbiBytes, AbiAddress]
    ensures FractionalizeProperty.inputs == [AbiUint256, AbiString, AbiString, AbiUint256, AbiUint256]
    ensures DepositEscrow.inputs == [] && DepositEscrow.payable
  {
  }

  /** The four argument lists of a deed mint or create conform exactly when
      the commitment is `bytes` and the owner is a defined address. */
  lemma DeedArgsConform(id: string, uri: string, commitment: string, owner: Arg)
    ensures ArgsConform([ArgString(id), ArgString(uri), ArgBytes(CommitmentBytes(commitment)), owner], MintPropertyDeed)
      <==> owner.ArgAddress?
  {
    var args := [ArgString(id), ArgString(uri), ArgBytes(CommitmentBytes(commitment)), owner];
    var ts := MintPropertyDeed.inputs;
    assert Conforms(args[0], ts[0]) && Conforms(args[1], ts[1]) && Conforms(args[2], ts[2]);
    assert Conforms(args[3], ts[3]) <==> owner.ArgAddress?;
  }
}
