/** The deed-minting hook: `tokenizeProperty` checks its inputs in a fixed
    order, hex-encodes the commitment and issues one `mintPropertyDeed` write;
    failures are normalised into a message and stored as the hook's error.

    `writeContract` is a mutation that never throws: it records the request,
    and the transaction hash or error arrives later, as `OnWriteSettled`
    models. The hash a call returns is therefore the one held before it. */
module Tokenization {
  import opened Common
  import JsString
  import Contracts
  import Utf8
  import Hex

  const WalletMessage: string := "Wallet not connected"
  const NotConfiguredMessage: string :=
    "StrataDeedNFT contract " + "address not configured. " + "Deploy contracts first."
  const EmptyIdMessage: string := "Property ID cannot be empty"
  const EmptyUriMessage: string := "Metadata URI cannot be empty"
  const NoCommitmentMessage: string := "Private commitment is " + "required for ZK proofs"
  const RejectedMessage: string := "Transaction rejected by user"
  const DefaultMessage: string := "Failed to tokenize property"
  const SubmittedMessage: string := "Transaction submitted to Avalanche C-Chain"

  /** `!s || s.trim().length === 0` */
  predicate IsBlankInput(s: string)
  {
    s == [] || |JsString.Trim(s)| == 0
  }

  lemma IsBlankInputIffWhitespace(s: string)
    ensures IsBlankInput(s) <==> JsString.IsBlank(s)
  {
    JsString.TrimEmptyIffBlank(s);
  }

  /** The message of the first guard of `tokenizeProperty` that fails, in the
      order wallet, contract address, property id, metadata URI, commitment;
      `None` when all pass. The id and URI are trimmed, the commitment only
      tested for length. */
  function FirstFailure(wallet: Option<string>, nftAddress: string, propertyId: string,
                        metadataUri: string, commitment: string): (r: Option<string>)
    ensures wallet.None? || wallet.value == "" ==> r == Some(WalletMessage)
    ensures wallet.Some? && wallet.value != "" && nftAddress == "" ==> r == Some(NotConfiguredMessage)
    ensures wallet.Some? && wallet.value != "" && nftAddress != "" && JsString.IsBlank(propertyId)
      ==> r == Some(EmptyIdMessage)
    ensures (wallet.Some? && wallet.value != "" && nftAddress != "" && !JsString.IsBlank(propertyId)
             && JsString.IsBlank(metadataUri)) ==> r == Some(EmptyUriMessage)
    ensures (wallet.Some? && wallet.value != "" && nftAddress != "" && !JsString.IsBlank(propertyId)
             && !JsString.IsBlank(metadataUri) && commitment == []) ==> r == Some(NoCommitmentMessage)
    ensures r.None? <==> (wallet.Some? && wallet.value != "" && nftAddress != "" &&
                          !JsString.IsBlank(propertyId) && !JsString.IsBlank(metadataUri) && commitment != [])
  {
    IsBlankInputIffWhitespace(propertyId);
    IsBlankInputIffWhitespace(metadataUri);
    if wallet.None? || wallet.value == "" then Some(WalletMessage)
    else if nftAddress == "" then Some(NotConfiguredMessage)
    else if IsBlankInput(propertyId) then Some(EmptyIdMessage)
    else if IsBlankInput(metadataUri) then Some(EmptyUriMessage)
    else if commitment == [] then Some(NoCommitmentMessage)
    else None
  }

  predicate MentionsRejection(m: string)
  {
    JsString.Includes(m, "User rejected") || JsString.Includes(m, "denied")
  }

  /** The catch block: a message mentioning a rejection becomes the rejection
      message, any other non-empty message is kept, and a missing or empty
      one becomes the default. */
  function NormaliseError(message: Option<string>): (r: string)
    ensures message.Some? && MentionsRejection(message.value) ==> r == RejectedMessage
    ensures message.Some? && message.value != "" && !MentionsRejection(message.value) ==> r == message.value
    ensures message.None? || message.value == "" ==> r == DefaultMessage
    ensures r != ""
  {
    if message.Some? && MentionsRejection(message.value) then RejectedMessage
    else if message.Some? && message.value != "" then message.value
    else DefaultMessage
  }

  // "User rejected" has a 'j' that no guard message contains, and a 'U' that
  // the catch block's own messages lack; "denied" has an 'i' that some
  // messages lack, and its "de" occurs in none of the others.

  /** No rejection is mentioned by a message lacking `c1` of "User rejected"
      (at position `k1`) and `c2` of "denied" (at position `k2`). */
  lemma KeptByMissingChars(m: string, k1: nat, k2: nat)
    requires k1 < 13 && k2 < 6
    requires "User rejected"[k1] !in m && "denied"[k2] !in m
    ensures !MentionsRejection(m)
  {
    JsString.NotIncludesMissingChar(m, "User rejected", k1);
    JsString.NotIncludesMissingChar(m, "denied", k2);
  }

  /** No rejection is mentioned by a message lacking a character of "User
      rejected" and never holding "d" before "e". */
  lemma KeptByMissingPair(m: string, k1: nat)
    requires k1 < 13 && "User rejected"[k1] !in m
    requires JsString.LacksPair(m, 'd', 'e')
    ensures !MentionsRejection(m)
  {
    JsString.NotIncludesMissingChar(m, "User rejected", k1);
    JsString.NotIncludesMissingPair(m, "denied");
  }

  lemma WalletMessageKept()
    ensures !MentionsRejection(WalletMessage)
  {
    KeptByMissingChars(WalletMessage, 7, 3);
  }

  lemma NotConfiguredMessageKept()
    ensures !MentionsRejection(NotConfiguredMessage)
  {
    NotConfiguredLacksDe();
    KeptByMissingPair(NotConfiguredMessage, 7);
  }

  lemma NotConfiguredLacksDe()
    ensures JsString.LacksPair(NotConfiguredMessage, 'd', 'e')
  {
    JsString.LacksPairAppend("StrataDeedNFT contract ", "address not configured. ", 'd', 'e');
    JsString.LacksPairAppend("StrataDeedNFT contract " + "address not configured. ", "Deploy contracts first.", 'd', 'e');
  }

  lemma EmptyIdMessageKept()
    ensures !MentionsRejection(EmptyIdMessage)
  {
    KeptByMissingChars(EmptyIdMessage, 7, 3);
  }

  lemma EmptyUriMessageKept()
    ensures !MentionsRejection(EmptyUriMessage)
  {
    KeptByMissingChars(EmptyUriMessage, 7, 3);
  }

  lemma NoCommitmentMessageKept()
    ensures !MentionsRejection(NoCommitmentMessage)
  {
    JsString.LacksPairAppend("Private commitment is ", "required for ZK proofs", 'd', 'e');
    KeptByMissingPair(NoCommitmentMessage, 7);
  }

  lemma RejectedMessageKept()
    ensures !MentionsRejection(RejectedMessage)
  {
    KeptByMissingPair(RejectedMessage, 0);
  }

  lemma DefaultMessageKept()
    ensures !MentionsRejection(DefaultMessage)
  {
    KeptByMissingPair(DefaultMessage, 0);
  }

  /** Every message from a failed guard comes out of the catch block
      unchanged: the rejection mapping never applies to them. */
  lemma GuardMessagesKept(wallet: Option<string>, nftAddress: string, propertyId: string,
                          metadataUri: string, commitment: string)
    requires FirstFailure(wallet, nftAddress, propertyId, metadataUri, commitment).Some?
    ensures NormaliseError(FirstFailure(wallet, nftAddress, propertyId, metadataUri, commitment))
         == FirstFailure(wallet, nftAddress, propertyId, metadataUri, commitment).value
  {
    var m := FirstFailure(wallet, nftAddress, propertyId, metadataUri, commitment).value;
    if m == WalletMessage {
      WalletMessageKept();
    } else if m == NotConfiguredMessage {
      NotConfiguredMessageKept();
    } else if m == EmptyIdMessage {
      EmptyIdMessageKept();
    } else if m == EmptyUriMessage {
      EmptyUriMessageKept();
    } else {
      NoCommitmentMessageKept();
    }
  }

  /** Normalising a normalised message changes nothing. */
  lemma NormaliseErrorIdempotent(message: Option<string>)
    ensures NormaliseError(Some(NormaliseError(message))) == NormaliseError(message)
  {
    if message.Some? && MentionsRejection(message.value) {
      RejectedMessageKept();
    } else if message.None? || message.value == "" {
      DefaultMessageKept();
    }
  }

  /** The `mintPropertyDeed` request, arguments in the order id, URI,
      commitment as `bytes`, owner. It can be encoded exactly when the owner
      is a defined address. */
  function MintRequest(nftAddress: string, propertyId: string, metadataUri: string,
                       commitment: string, owner: Contracts.Arg): (r: Contracts.WriteRequest)
    ensures Contracts.ArgsConform(r.args, Contracts.MintPropertyDeed) <==> owner.ArgAddress?
    ensures r.target == nftAddress && r.fn == Contracts.MintPropertyDeed && r.value == 0 && |r.args| == 4
    ensures r.args[0] == Contracts.ArgString(propertyId) && r.args[1] == Contracts.ArgString(metadataUri)
    ensures r.args[2].ArgBytes? && Hex.Decode0x(r.args[2].hex) == Some(Utf8.Encode(commitment))
    ensures r.args[3] == owner
  {
    Contracts.DeedArgsConform(propertyId, metadataUri, commitment, owner);
    Contracts.WriteRequest(nftAddress, Contracts.MintPropertyDeed,
      [Contracts.ArgString(propertyId), Contracts.ArgString(metadataUri),
       Contracts.ArgBytes(Contracts.CommitmentBytes(commitment)), owner], 0)
  }

  /** What `tokenizeProperty` resolves to. */
  datatype TokenizeResult = TokenizeResult(success: bool, hash: Option<string>, message: string)

  /** The state of one `useTokenization()` instance: its own error and its
      `useWriteContract` state. */
  class TokenizationHook {
    var error: Option<string>
    var write: Contracts.WriteState

    constructor()
      ensures error == None && write == Contracts.IdleWrite
    {
      error := None;
      write := Contracts.IdleWrite;
    }

    /** `error || writeError?.message || null`: empty strings count as absent. */
    function ExposedError(): (r: Option<string>)
      reads this
      ensures r.Some? ==> r.value != ""
      ensures error.Some? && error.value != "" ==> r == error
      ensures (error.None? || error.value == "") ==>
        r == (if write.error.Some? && write.error.value != "" then write.error else None)
    {
      if error.Some? && error.value != "" then error
      else if write.error.Some? && write.error.value != "" then write.error
      else None
    }

    /** `loading || isConfirming`, where `confirming` is the receipt hook's
        loading flag. */
    predicate Loading(confirming: bool)
      reads this
    {
      write.isPending || confirming
    }

    /** `tokenizeProperty(propertyId, metadataURI, mintFee, privateCommitment,
        owner)`. The fee is accepted and ignored. */
    method TokenizeProperty(wallet: Option<string>, nftAddress: string, propertyId: string,
                            metadataUri: string, mintFee: string, commitment: string,
                            owner: Contracts.Arg)
      returns (result: TokenizeResult)
      modifies this
      ensures var failure := FirstFailure(wallet, nftAddress, propertyId, metadataUri, commitment);
        if failure.Some? then
          && result == TokenizeResult(false, None, failure.value)
          && error == failure
          && write == old(write)
        else
          && result == TokenizeResult(true, old(write.data), SubmittedMessage)
          && error == None
          && write == Contracts.Issue(old(write), MintRequest(nftAddress, propertyId, metadataUri, commitment, owner))
    {
      var hashBefore := write.data;
      error := None;
      // The guards throw; the catch block normalises the message.
      var thrown := FirstFailure(wallet, nftAddress, propertyId, metadataUri, commitment);
      if thrown.Some? {
        GuardMessagesKept(wallet, nftAddress, propertyId, metadataUri, commitment);
        var message := NormaliseError(thrown);
        error := Some(message);
        return TokenizeResult(false, None, message);
      }
      var commitmentBytes := Contracts.CommitmentBytes(commitment);
      write := Contracts.Issue(write, Contracts.WriteRequest(nftAddress, Contracts.MintPropertyDeed,
        [Contracts.ArgString(propertyId), Contracts.ArgString(metadataUri),
         Contracts.ArgBytes(commitmentBytes), owner], 0));
      result := TokenizeResult(true, hashBefore, SubmittedMessage);
    }

    /** The pending write settles with a hash or an error. */
    method OnWriteSettled(outcome: Contracts.WriteOutcome)
      modifies this
      ensures error == old(error) && write == Contracts.Settle(old(write), outcome)
    {
      write := Contracts.Settle(write, outcome);
    }
  }

  /** On a fresh hook the first call that passes the guards resolves with no
      hash: the stale value it returns was read before the write. */
  method FirstSubmitHasNoHash(wallet: string, nftAddress: string, propertyId: string,
                              metadataUri: string, commitment: string, owner: Contracts.Arg)
    returns (result: TokenizeResult)
    requires FirstFailure(Some(wallet), nftAddress, propertyId, metadataUri, commitment).None?
    ensures result.success && result.hash.None?
  {
    var hook := new TokenizationHook();
    result := hook.TokenizeProperty(Some(wallet), nftAddress, propertyId, metadataUri, "0", commitment, owner);
  }
}
