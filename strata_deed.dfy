/** The core-contract hook: `deployStrataDeed` (a `createProperty` write
    bracketed by the `isDeploying` flag), `fractionalizeProperty` and
    `depositEscrow`. Each write returns the hash held before it was issued,
    and a failed guard is thrown to the caller. */
module StrataDeed {
  import opened Common
  import Contracts
  import Utf8
  import Hex

  const WalletMessage: string := "Wallet not connected"
  const CoreNotConfiguredMessage: string := "StrataDeedCore contract address not configured"

  /** A call either returns a hash (possibly undefined) or throws a message. */
  datatype Outcome = Returned(hash: Option<string>) | Threw(message: string)

  /** The guards of `deployStrataDeed` and `fractionalizeProperty`: the
      wallet first, then the core contract's address. */
  function CoreFailure(wallet: Option<string>, coreAddress: string): (r: Option<string>)
    ensures wallet.None? || wallet.value == "" ==> r == Some(WalletMessage)
    ensures wallet.Some? && wallet.value != "" && coreAddress == "" ==> r == Some(CoreNotConfiguredMessage)
    ensures r.None? <==> (wallet.Some? && wallet.value != "" && coreAddress != "")
  {
    if wallet.None? || wallet.value == "" then Some(WalletMessage)
    else if coreAddress == "" then Some(CoreNotConfiguredMessage)
    else None
  }

  /** `createProperty(propertyId, metadataURI, commitmentBytes, owner)` on the
      core contract; it can be encoded exactly when the owner is defined. */
  function CreatePropertyRequest(coreAddress: string, propertyId: string, metadataUri: string,
                                 commitment: string, owner: Contracts.Arg): (r: Contracts.WriteRequest)
    ensures Contracts.ArgsConform(r.args, Contracts.CreateProperty) <==> owner.ArgAddress?
    ensures r.target == coreAddress && r.fn == Contracts.CreateProperty && r.value == 0 && |r.args| == 4
    ensures r.args[0] == Contracts.ArgString(propertyId) && r.args[1] == Contracts.ArgString(metadataUri)
    ensures r.args[2].ArgBytes? && Hex.Decode0x(r.args[2].hex) == Some(Utf8.Encode(commitment))
    ensures r.args[3] == owner
  {
    Contracts.DeedArgsConform(propertyId, metadataUri, commitment, owner);
    Contracts.WriteRequest(coreAddress, Contracts.CreateProperty,
      [Contracts.ArgString(propertyId), Contracts.ArgString(metadataUri),
       Contracts.ArgBytes(Contracts.CommitmentBytes(commitment)), owner], 0)
  }

  /** `fractionalizeProperty(deedTokenId, tokenName, tokenSymbol, totalShares,
      fundingCap)`, arguments in that order. */
  function FractionalizeRequest(coreAddress: string, deedTokenId: int, tokenName: string,
                                tokenSymbol: string, totalShares: int, fundingCap: int): (r: Contracts.WriteRequest)
    ensures Contracts.ArgsConform(r.args, Contracts.FractionalizeProperty) <==>
      (0 <= deedTokenId < Contracts.Uint256Bound && 0 <= totalShares < Contracts.Uint256Bound &&
       0 <= fundingCap < Contracts.Uint256Bound)
    ensures r.target == coreAddress && r.fn == Contracts.FractionalizeProperty && r.value == 0
    ensures r.args == [Contracts.ArgUint(deedTokenId), Contracts.ArgString(tokenName), Contracts.ArgString(tokenSymbol),
                       Contracts.ArgUint(totalShares), Contracts.ArgUint(fundingCap)]
  {
    var r := Contracts.WriteRequest(coreAddress, Contracts.FractionalizeProperty,
      [Contracts.ArgUint(deedTokenId), Contracts.ArgString(tokenName), Contracts.ArgString(tokenSymbol),
       Contracts.ArgUint(totalShares), Contracts.ArgUint(fundingCap)], 0);
    var a, t := r.args, Contracts.FractionalizeProperty.inputs;
    assert Contracts.ArgsConform(a, Contracts.FractionalizeProperty) <==>
      (Contracts.Conforms(a[0], t[0]) && Contracts.Conforms(a[1], t[1]) && Contracts.Conforms(a[2], t[2])
       && Contracts.Conforms(a[3], t[3]) && Contracts.Conforms(a[4], t[4]));
    r
  }

  /** The request carries every argument in its own ABI slot: two requests
      agree only when all their arguments do, so no two are swapped or lost. */
  lemma FractionalizeRequestInjective(coreAddress: string, deedTokenId: int, tokenName: string,
                                      tokenSymbol: string, totalShares: int, fundingCap: int,
                                      coreAddress': string, deedTokenId': int, tokenName': string,
                                      tokenSymbol': string, totalShares': int, fundingCap': int)
    requires FractionalizeRequest(coreAddress, deedTokenId, tokenName, tokenSymbol, totalShares, fundingCap) ==
             FractionalizeRequest(coreAddress', deedTokenId', tokenName', tokenSymbol', totalShares', fundingCap')
    ensures coreAddress == coreAddress' && deedTokenId == deedTokenId' && tokenName == tokenName'
    ensures tokenSymbol == tokenSymbol' && totalShares == totalShares' && fundingCap == fundingCap'
  {
    var r := FractionalizeRequest(coreAddress, deedTokenId, tokenName, tokenSymbol, totalShares, fundingCap);
    assert r.args[0].n == deedTokenId' && r.args[1].s == tokenName' && r.args[2].s == tokenSymbol';
    assert r.args[3].n == totalShares' && r.args[4].n == fundingCap';
  }

  /** `depositEscrow()` on the given token contract, sending `amount`. */
  function DepositRequest(tokenAddress: string, amount: int): (r: Contracts.WriteRequest)
    ensures Contracts.ArgsConform(r.args, Contracts.DepositEscrow) && r.value == amount
    ensures r.target == tokenAddress && r.fn == Contracts.DepositEscrow && r.fn.payable && r.args == []
  {
    Contracts.WriteRequest(tokenAddress, Contracts.DepositEscrow, [], amount)
  }

  /** The state of one `useStrataDeed()` instance. */
  class StrataDeedHook {
    var deploying: bool
    var write: Contracts.WriteState

    constructor()
      ensures !deploying && write == Contracts.IdleWrite
    {
      deploying := false;
      write := Contracts.IdleWrite;
    }

    /** The exposed `isDeploying || isPending`. */
    predicate IsDeploying()
      reads this
    {
      deploying || write.isPending
    }

    /** `deployStrataDeed(propertyId, metadataURI, privateCommitment,
        ownerAddress)`. The flag is raised on entry and lowered in `finally`,
        so it is down on every exit. */
    method DeployStrataDeed(wallet: Option<string>, coreAddress: string, propertyId: string,
                            metadataUri: string, commitment: string, owner: Contracts.Arg)
      returns (outcome: Outcome)
      modifies this
      ensures !deploying
      ensures var failure := CoreFailure(wallet, coreAddress);
        if failure.Some? then outcome == Threw(failure.value) && write == old(write)
        else
          && outcome == Returned(old(write.data))
          && write == Contracts.Issue(old(write), CreatePropertyRequest(coreAddress, propertyId, metadataUri, commitment, owner))
    {
      deploying := true;
      if wallet.None? || wallet.value == "" {
        outcome := Threw(WalletMessage);
      } else if coreAddress == "" {
        outcome := Threw(CoreNotConfiguredMessage);
      } else {
        var hashBefore := write.data;
        var commitmentBytes := Contracts.CommitmentBytes(commitment);
        write := Contracts.Issue(write, Contracts.WriteRequest(coreAddress, Contracts.CreateProperty,
          [Contracts.ArgString(propertyId), Contracts.ArgString(metadataUri),
           Contracts.ArgBytes(commitmentBytes), owner], 0));
        outcome := Returned(hashBefore);
      }
      deploying := false;
    }

    /** `fractionalizeProperty(...)`: the same two guards, no flag. */
    method FractionalizeProperty(wallet: Option<string>, coreAddress: string, deedTokenId: int,
                                 tokenName: string, tokenSymbol: string, totalShares: int, fundingCap: int)
      returns (outcome: Outcome)
      modifies this
      ensures deploying == old(deploying)
      ensures var failure := CoreFailure(wallet, coreAddress);
        if failure.Some? then outcome == Threw(failure.value) && write == old(write)
        else
          && outcome == Returned(old(write.data))
          && write == Contracts.Issue(old(write),
               FractionalizeRequest(coreAddress, deedTokenId, tokenName, tokenSymbol, totalShares, fundingCap))
    {
      if wallet.None? || wallet.value == "" {
        return Threw(WalletMessage);
      }
      if coreAddress == "" {
        return Threw(CoreNotConfiguredMessage);
      }
      var hashBefore := write.data;
      write := Contracts.Issue(write, FractionalizeRequest(coreAddress, deedTokenId, tokenName, tokenSymbol, totalShares, fundingCap));
      outcome := Returned(hashBefore);
    }

    /** `depositEscrow(fractionalTokenAddress, amount)`: only the wallet is
        checked; the target address is the caller's. */
    method DepositEscrow(wallet: Option<string>, tokenAddress: string, amount: int)
      returns (outcome: Outcome)
      modifies this
      ensures deploying == old(deploying)
      ensures wallet.None? || wallet.value == "" ==> outcome == Threw(WalletMessage) && write == old(write)
      ensures wallet.Some? && wallet.value != "" ==>
        outcome == Returned(old(write.data)) && write == Contracts.Issue(old(write), DepositRequest(tokenAddress, amount))
    {
      if wallet.None? || wallet.value == "" {
        return Threw(WalletMessage);
      }
      var hashBefore := write.data;
      write := Contracts.Issue(write, DepositRequest(tokenAddress, amount));
      outcome := Returned(hashBefore);
    }

    /** The pending write settles with a hash or an error. */
    method OnWriteSettled(result: Contracts.WriteOutcome)
      modifies this
      ensures deploying == old(deploying) && write == Contracts.Settle(old(write), result)
    {
      write := Contracts.Settle(write, result);
    }
  }
}
