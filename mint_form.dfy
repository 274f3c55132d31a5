/** The mint form hook: form state, the attached files, and `handleSubmit`,
    which checks the network and the required fields, builds the metadata
    URI and the commitment, mints the deed through the tokenization hook and,
    when tokenization is on, deploys through the core-contract hook. */
module MintForm {
  import opened Common
  import JsString
  import Utf8
  import Hex
  import UriEscape
  import Metadata
  import Contracts
  import Files
  import Tokenization
  import StrataDeed

  datatype MintStep = Idle | Minting | Tokenizing

  datatype MintFormData = MintFormData(
    title: string, location: string, valuation: string, description: string,
    propertyType: string, image: string, tokenizationEnabled: bool,
    targetRaise: string, tokenSupply: string)

  /** The initial form, also restored by `resetForm`. */
  const DefaultForm: MintFormData :=
    MintFormData("", "", "", "", "residential", "", true, "", "1000")

  /** The text fields `handleInputChange` can name. */
  datatype Field = Title | Location | Valuation | Description | PropertyType | Image | TargetRaise | TokenSupply

  function FieldValue(f: MintFormData, field: Field): string
  {
    match field
    case Title => f.title
    case Location => f.location
    case Valuation => f.valuation
    case Description => f.description
    case PropertyType => f.propertyType
    case Image => f.image
    case TargetRaise => f.targetRaise
    case TokenSupply => f.tokenSupply
  }

  /** `{ ...prev, [name]: value }`: only the named field changes. */
  function SetField(f: MintFormData, field: Field, value: string): (r: MintFormData)
    ensures FieldValue(r, field) == value
    ensures forall g :: g != field ==> FieldValue(r, g) == FieldValue(f, g)
    ensures r.tokenizationEnabled == f.tokenizationEnabled
  {
    match field
    case Title => f.(title := value)
    case Location => f.(location := value)
    case Valuation => f.(valuation := value)
    case Description => f.(description := value)
    case PropertyType => f.(propertyType := value)
    case Image => f.(image := value)
    case TargetRaise => f.(targetRaise := value)
    case TokenSupply => f.(tokenSupply := value)
  }

  /** `n <= 0`; false for `NaN`. */
  predicate AtMostZero(n: JsString.JsNumber)
  {
    JsString.AtMost(n, 0.0)
  }

  const ChainMessage: string := "Please switch your network to Mantle Sepolia (5003) to mint property deeds."
  const RequiredMessage: string := "Please fill in all required fields (Title, Location, Valuation)"
  const TargetRaiseMessage: string := "Please specify a valid Target Raise for tokenization."
  const NotInitiatedMessage: string :=
    "Transaction failed to initiate. Please check your wallet connection or balance."
  const DefaultMintMessage: string := "Failed to mint property deed"

  /** The chain id the form demands. */
  const RequiredChainId: int := 5003

  /** The two checks made before the step leaves idle: the network, then the
      three required fields. */
  function GateFailure(chainId: int, f: MintFormData): (r: Option<string>)
    ensures chainId != RequiredChainId ==> r == Some(ChainMessage)
    ensures chainId == RequiredChainId ==>
      (r == Some(RequiredMessage) <==> f.title == "" || f.location == "" || f.valuation == "")
    ensures r.None? <==> chainId == RequiredChainId && f.title != "" && f.location != "" && f.valuation != ""
  {
    if chainId != RequiredChainId then Some(ChainMessage)
    else if f.title == "" || f.location == "" || f.valuation == "" then Some(RequiredMessage)
    else None
  }

  /** With tokenization on, an empty target raise or one that is not above
      zero is refused. A value `Number` cannot read is `NaN` and passes. */
  predicate TargetRaiseInvalid(f: MintFormData, toNumber: string -> JsString.JsNumber)
  {
    f.tokenizationEnabled && (f.targetRaise == "" || AtMostZero(toNumber(f.targetRaise)))
  }

  /** The values `handleSubmit` takes from outside: the wallet's chain and
      account, the configured addresses, the clock, the two `toFixed` figures,
      and the serialiser, hash and number parser it calls. */
  datatype SubmitContext = SubmitContext(
    chainId: int, wallet: Option<string>, nftAddress: string, coreAddress: string,
    isoTime: string, nowMs: nat, tokenPrice: string, equityPercentage: string,
    stringify: Metadata.Json -> string, keccak: seq<byte> -> seq<byte>,
    toNumber: string -> JsString.JsNumber)

  /** `tokenization` in the metadata: `{enabled:false}` when tokenization
      is off, otherwise the raise and supply with the two derived figures. */
  function TokenizationJson(f: MintFormData, tokenPrice: string, equityPercentage: string): (r: Metadata.Json)
    ensures r.JObj?
    ensures !f.tokenizationEnabled <==> r == Metadata.JObj([("enabled", Metadata.JBool(false))])
    ensures f.tokenizationEnabled ==>
      Metadata.Keys(r.members) == ["enabled", "targetRaise", "tokenSupply", "tokenPrice", "equityPercentage"] &&
      r.members[1].1 == Metadata.JStr(f.targetRaise) && r.members[2].1 == Metadata.JStr(f.tokenSupply)
  {
    if f.tokenizationEnabled then
      Metadata.JObj([("enabled", Metadata.JBool(true)), ("targetRaise", Metadata.JStr(f.targetRaise)),
                     ("tokenSupply", Metadata.JStr(f.tokenSupply)), ("tokenPrice", Metadata.JStr(tokenPrice)),
                     ("equityPercentage", Metadata.JStr(equityPercentage))])
    else Metadata.JObj([("enabled", Metadata.JBool(false))])
  }

  function FileNames(files: seq<Files.FileInfo>): (r: seq<string>)
    ensures |r| == |files| && forall i :: 0 <= i < |files| ==> r[i] == files[i].name
  {
    seq(|files|, i requires 0 <= i < |files| => files[i].name)
  }

  /** `f.name + f.size` for each file. */
  function NamesWithSizes(files: seq<Files.FileInfo>): (r: seq<string>)
    ensures |r| == |files| && forall i :: 0 <= i < |files| ==> r[i] == files[i].name + JsString.NatToDecimal(files[i].size)
  {
    seq(|files|, i requires 0 <= i < |files| => files[i].name + JsString.NatToDecimal(files[i].size))
  }

  /** The metadata object, members in source order. */
  function MetadataJson(f: MintFormData, files: seq<Files.FileInfo>, ctx: SubmitContext): Metadata.Json
  {
    Metadata.JObj([("name", Metadata.JStr(f.title)), ("description", Metadata.JStr(f.description)),
                   ("location", Metadata.JStr(f.location)), ("type", Metadata.JStr(f.propertyType)),
                   ("valuation", Metadata.JStr(f.valuation)), ("timestamp", Metadata.JStr(ctx.isoTime)),
                   ("files", Metadata.StrArray(FileNames(files))),
                   ("tokenization", TokenizationJson(f, ctx.tokenPrice, ctx.equityPercentage))])
  }

  /** The metadata URI: base 64 of the UTF-8 bytes of the serialised object. */
  function MetadataUri(f: MintFormData, files: seq<Files.FileInfo>, ctx: SubmitContext): (r: string)
    ensures Metadata.ParseDataUri(r) == Some(Utf8.Encode(ctx.stringify(MetadataJson(f, files, ctx))))
  {
    Metadata.Utf8DataUriRoundTrip(ctx.stringify(MetadataJson(f, files, ctx)));
    Metadata.Utf8DataUri(ctx.stringify(MetadataJson(f, files, ctx)))
  }

  /** ``PROP-${Date.now()}`` */
  function PropertyId(nowMs: nat): (r: string)
    ensures |r| > 5 && r[..5] == "PROP-"
    ensures JsString.DigitsValue(r[5..], 10) == nowMs
  {
    JsString.NatToStringRoundTrip(nowMs, 10);
    assert ("PROP-" + JsString.NatToDecimal(nowMs))[5..] == JsString.NatToDecimal(nowMs);
    "PROP-" + JsString.NatToDecimal(nowMs)
  }

  /** The commitment preimage: valuation, name+size per file, and the
      property id as salt. */
  function PrivateData(valuation: string, files: seq<Files.FileInfo>, propertyId: string): Metadata.Json
  {
    Metadata.JObj([("valuation", Metadata.JStr(valuation)),
                   ("files", Metadata.StrArray(NamesWithSizes(files))),
                   ("salt", Metadata.JStr(propertyId))])
  }

  /** `keccak256(encodePacked(["string"], [privateDataString]))` as a hex
      string: ``0x`` and the digest's digits. */
  function PrivateCommitment(valuation: string, files: seq<Files.FileInfo>, nowMs: nat,
                             stringify: Metadata.Json -> string, keccak: seq<byte> -> seq<byte>): (r: string)
    ensures Hex.Decode0x(r) == Some(keccak(Utf8.Encode(stringify(PrivateData(valuation, files, PropertyId(nowMs))))))
  {
    var digest := keccak(Utf8.Encode(stringify(PrivateData(valuation, files, PropertyId(nowMs)))));
    Hex.DecodeEncode0x(digest);
    Hex.Encode0x(digest)
  }

  /** The commitment `handleSubmit` computes from its form and context. */
  function CommitmentOf(f: MintFormData, files: seq<Files.FileInfo>, ctx: SubmitContext): string
  {
    PrivateCommitment(f.valuation, files, ctx.nowMs, ctx.stringify, ctx.keccak)
  }

  /** `address as `0x${string}``: the account, or `undefined`. */
  function OwnerArg(wallet: Option<string>): (r: Contracts.Arg)
    ensures r.ArgAddress? <==> wallet.Some?
  {
    if wallet.Some? then Contracts.ArgAddress(wallet.value) else Contracts.ArgUndefined
  }

  /** The deed mint request `handleSubmit` issues. */
  function MintRequestOf(f: MintFormData, files: seq<Files.FileInfo>, ctx: SubmitContext): Contracts.WriteRequest
  {
    Tokenization.MintRequest(ctx.nftAddress, PropertyId(ctx.nowMs), MetadataUri(f, files, ctx),
                             CommitmentOf(f, files, ctx), OwnerArg(ctx.wallet))
  }

  /** The deployment request: the three arguments passed fill the first
      three of four parameters, so the target raise is the property id, the
      account is the metadata URI, `[]` is the commitment (it converts to
      the empty string) and the owner is `undefined`. */
  function DeployRequestOf(f: MintFormData, ctx: SubmitContext): (r: Contracts.WriteRequest)
    requires ctx.wallet.Some?
    ensures |r.args| == 4 && r.args[0] == Contracts.ArgString(f.targetRaise) && r.args[1] == Contracts.ArgString(ctx.wallet.value)
    ensures r.args[2] == Contracts.ArgBytes("0x") && r.args[3] == Contracts.ArgUndefined
    ensures !Contracts.ArgsConform(r.args, Contracts.CreateProperty)
  {
    assert Utf8.Encode("") == [];
    StrataDeed.CreatePropertyRequest(ctx.coreAddress, f.targetRaise, ctx.wallet.value, "", Contracts.ArgUndefined)
  }

  /** The message stored when the mint does not yield a hash: the
      tokenization hook's error as last rendered, or the fixed message. */
  function NotInitiated(mintError: Option<string>): (r: string)
    ensures r != ""
    ensures mintError.Some? && mintError.value != "" ==> r == mintError.value
  {
    if mintError.Some? && mintError.value != "" then mintError.value else NotInitiatedMessage
  }

  /** The hash the mint returns is used only if it is defined and non-empty. */
  predicate Truthy(h: Option<string>)
  {
    h.Some? && h.value != ""
  }

  class MintFormHook {
    var formData: MintFormData
    var selectedFiles: seq<Files.FileInfo>
    var txHash: Option<string>
    var rwaTxHash: Option<string>
    var submitError: Option<string>
    var currentStep: MintStep
    const tokenization: Tokenization.TokenizationHook
    const strataDeed: StrataDeed.StrataDeedHook

    constructor()
      ensures formData == DefaultForm && selectedFiles == [] && txHash == None && rwaTxHash == None
      ensures submitError == None && currentStep == Idle
      ensures fresh(tokenization) && fresh(strataDeed)
      ensures tokenization.error == None && tokenization.write == Contracts.IdleWrite
      ensures !strataDeed.deploying && strataDeed.write == Contracts.IdleWrite
    {
      formData := DefaultForm;
      selectedFiles := [];
      txHash := None;
      rwaTxHash := None;
      submitError := None;
      currentStep := Idle;
      tokenization := new Tokenization.TokenizationHook();
      strataDeed := new StrataDeed.StrataDeedHook();
    }

    /** `isMinting || isDeploying || currentStep !== "idle"`. */
    function IsProcessing(confirming: bool): (r: bool)
      reads this, tokenization, strataDeed
      ensures currentStep != Idle ==> r
      ensures r <==> tokenization.Loading(confirming) || strataDeed.IsDeploying() || currentStep != Idle
    {
      tokenization.Loading(confirming) || strataDeed.IsDeploying() || currentStep != Idle
    }

    method HandleFileSelect(files: seq<Files.FileInfo>)
      modifies this
      ensures selectedFiles == Files.AppendCapped(old(selectedFiles), files)
      ensures formData == old(formData) && currentStep == old(currentStep) && submitError == old(submitError)
      ensures txHash == old(txHash) && rwaTxHash == old(rwaTxHash)
    {
      selectedFiles := Files.AppendCapped(selectedFiles, files);
    }

    method HandleRemoveFile(index: int)
      modifies this
      ensures selectedFiles == Files.RemoveAt(old(selectedFiles), index)
      ensures formData == old(formData) && currentStep == old(currentStep) && submitError == old(submitError)
      ensures txHash == old(txHash) && rwaTxHash == old(rwaTxHash)
    {
      selectedFiles := Files.RemoveAt(selectedFiles, index);
    }

    method HandleInputChange(field: Field, value: string)
      modifies this
      ensures formData == SetField(old(formData), field, value)
      ensures selectedFiles == old(selectedFiles) && currentStep == old(currentStep) && submitError == old(submitError)
      ensures txHash == old(txHash) && rwaTxHash == old(rwaTxHash)
    {
      formData := SetField(formData, field, value);
    }

    /** `resetForm`: hashes cleared, step idle, no files, default form. The
        submit error is left as it was. */
    method ResetForm()
      modifies this
      ensures txHash == None && rwaTxHash == None && currentStep == Idle
      ensures selectedFiles == [] && formData == DefaultForm
      ensures submitError == old(submitError)
    {
      txHash := None;
      rwaTxHash := None;
      currentStep := Idle;
      selectedFiles := [];
      formData := DefaultForm;
    }

    /** `handleSubmit`. The hooks' state and the form are read as they were
        when the handler was created, which is their state on entry. */
    method HandleSubmit(ctx: SubmitContext)
      modifies this, tokenization, strataDeed
      ensures formData == old(formData) && selectedFiles == old(selectedFiles)
      // The network and field checks: nothing else happens.
      ensures GateFailure(ctx.chainId, formData).Some? ==>
        && submitError == GateFailure(ctx.chainId, formData)
        && currentStep == old(currentStep) && txHash == old(txHash) && rwaTxHash == old(rwaTxHash)
        && tokenization.write == old(tokenization.write) && tokenization.error == old(tokenization.error)
        && strataDeed.write == old(strataDeed.write)
      // The target raise check happens after the step is set, and the catch
      // block puts it back to idle.
      ensures GateFailure(ctx.chainId, formData).None? && TargetRaiseInvalid(formData, ctx.toNumber) ==>
        && submitError == Some(TargetRaiseMessage) && currentStep == Idle
        && txHash == old(txHash) && rwaTxHash == old(rwaTxHash)
        && tokenization.write == old(tokenization.write) && tokenization.error == old(tokenization.error)
        && strataDeed.write == old(strataDeed.write)
      // Past the checks the deed mint is attempted exactly once.
      ensures GateFailure(ctx.chainId, formData).None? && !TargetRaiseInvalid(formData, ctx.toNumber) ==>
        var guard := Tokenization.FirstFailure(ctx.wallet, ctx.nftAddress, PropertyId(ctx.nowMs),
                                               MetadataUri(formData, selectedFiles, ctx), CommitmentOf(formData, selectedFiles, ctx));
        && tokenization.write == (if guard.None? then Contracts.Issue(old(tokenization.write), MintRequestOf(formData, selectedFiles, ctx))
                                  else old(tokenization.write))
        && tokenization.error == guard
        && var accepted := guard.None? && Truthy(old(tokenization.write.data));
           && (!accepted ==>
                 && submitError == Some(NotInitiated(old(tokenization.ExposedError())))
                 && currentStep == Idle && txHash == old(txHash) && rwaTxHash == old(rwaTxHash)
                 && strataDeed.write == old(strataDeed.write))
           && (accepted ==> txHash == old(tokenization.write.data))
           && (accepted && !formData.tokenizationEnabled ==>
                 && submitError == None && currentStep == Minting && rwaTxHash == old(rwaTxHash)
                 && strataDeed.write == old(strataDeed.write))
           && (accepted && formData.tokenizationEnabled ==>
                 var deployFailure := StrataDeed.CoreFailure(ctx.wallet, ctx.coreAddress);
                 && !strataDeed.deploying
                 && (deployFailure.Some? ==>
                       && submitError == deployFailure && currentStep == Idle && rwaTxHash == old(rwaTxHash)
                       && strataDeed.write == old(strataDeed.write))
                 && (deployFailure.None? ==>
                       && submitError == None && currentStep == Tokenizing
                       && strataDeed.write == Contracts.Issue(old(strataDeed.write), DeployRequestOf(formData, ctx))
                       && rwaTxHash == (if Truthy(old(strataDeed.write.data)) then old(strataDeed.write.data) else old(rwaTxHash))))
    {
      var mintError := tokenization.ExposedError();
      submitError := None;
      var gate := GateFailure(ctx.chainId, formData);
      if gate.Some? {
        submitError := gate;
        return;
      }
      submitError := None;
      currentStep := Minting;

      if TargetRaiseInvalid(formData, ctx.toNumber) {
        submitError := Some(TargetRaiseMessage);
        currentStep := Idle;
        return;
      }
      Mint(ctx, mintError, PropertyId(ctx.nowMs), MetadataUri(formData, selectedFiles, ctx),
           CommitmentOf(formData, selectedFiles, ctx));
    }

    /** Past the checks: the deed mint through the tokenization hook and,
        with tokenisation on, the deploy. `mintError` is the hook's error as
        the handler read it on entry; `propertyId`, `metadataUri` and
        `commitment` are the values the handler computed from the form. */
    method Mint(ctx: SubmitContext, mintError: Option<string>,
                propertyId: string, metadataUri: string, commitment: string)
      requires submitError == None && currentStep == Minting
      modifies this, tokenization, strataDeed
      ensures formData == old(formData) && selectedFiles == old(selectedFiles)
      ensures
        var guard := Tokenization.FirstFailure(ctx.wallet, ctx.nftAddress, propertyId, metadataUri, commitment);
        && tokenization.write == (if guard.None? then Contracts.Issue(old(tokenization.write),
                                    Tokenization.MintRequest(ctx.nftAddress, propertyId, metadataUri, commitment, OwnerArg(ctx.wallet)))
                                  else old(tokenization.write))
        && tokenization.error == guard
        && var accepted := guard.None? && Truthy(old(tokenization.write.data));
           && (!accepted ==>
                 && submitError == Some(NotInitiated(mintError))
                 && currentStep == Idle && txHash == old(txHash) && rwaTxHash == old(rwaTxHash)
                 && strataDeed.write == old(strataDeed.write))
           && (accepted ==> txHash == old(tokenization.write.data))
           && (accepted && !formData.tokenizationEnabled ==>
                 && submitError == None && currentStep == Minting && rwaTxHash == old(rwaTxHash)
                 && strataDeed.write == old(strataDeed.write))
           && (accepted && formData.tokenizationEnabled ==>
                 var deployFailure := StrataDeed.CoreFailure(ctx.wallet, ctx.coreAddress);
                 && !strataDeed.deploying
                 && (deployFailure.Some? ==>
                       && submitError == deployFailure && currentStep == Idle && rwaTxHash == old(rwaTxHash)
                       && strataDeed.write == old(strataDeed.write))
                 && (deployFailure.None? ==>
                       && submitError == None && currentStep == Tokenizing
                       && strataDeed.write == Contracts.Issue(old(strataDeed.write), DeployRequestOf(formData, ctx))
                       && rwaTxHash == (if Truthy(old(strataDeed.write.data)) then old(strataDeed.write.data) else old(rwaTxHash))))
    {
      var result := tokenization.TokenizeProperty(ctx.wallet, ctx.nftAddress, propertyId, metadataUri, "0",
                                                  commitment, OwnerArg(ctx.wallet));
      if !(result.success && Truthy(result.hash)) {
        // `throw new Error(mintError || ...)`, then the catch block.
        submitError := Some(NotInitiated(mintError));
        currentStep := Idle;
        return;
      }
      Accepted(ctx, result.hash);
    }

    /** The mint returned a hash: it is kept, and with tokenisation on the
        deploy follows. */
    method Accepted(ctx: SubmitContext, hash: Option<string>)
      requires ctx.wallet.Some?
      modifies this, strataDeed
      ensures formData == old(formData) && selectedFiles == old(selectedFiles) && txHash == hash
      ensures !formData.tokenizationEnabled ==>
        && submitError == old(submitError) && currentStep == old(currentStep) && rwaTxHash == old(rwaTxHash)
        && strataDeed.write == old(strataDeed.write)
      ensures formData.tokenizationEnabled ==>
        var deployFailure := StrataDeed.CoreFailure(ctx.wallet, ctx.coreAddress);
        && !strataDeed.deploying
        && (deployFailure.Some? ==>
              && submitError == deployFailure && currentStep == Idle && rwaTxHash == old(rwaTxHash)
              && strataDeed.write == old(strataDeed.write))
        && (deployFailure.None? ==>
              && submitError == old(submitError) && currentStep == Tokenizing
              && strataDeed.write == Contracts.Issue(old(strataDeed.write), DeployRequestOf(formData, ctx))
              && rwaTxHash == (if Truthy(old(strataDeed.write.data)) then old(strataDeed.write.data) else old(rwaTxHash)))
    {
      txHash := hash;
      if !formData.tokenizationEnabled {
        return;
      }
      Deploy(ctx);
    }

    /** The tokenisation step of `handleSubmit`: the deploy call with the
        arguments the hook passes, its thrown message caught. */
    method Deploy(ctx: SubmitContext)
      requires ctx.wallet.Some?
      modifies this, strataDeed
      ensures formData == old(formData) && selectedFiles == old(selectedFiles) && txHash == old(txHash)
      ensures !strataDeed.deploying
      ensures var deployFailure := StrataDeed.CoreFailure(ctx.wallet, ctx.coreAddress);
        && (deployFailure.Some? ==>
              && submitError == deployFailure && currentStep == Idle && rwaTxHash == old(rwaTxHash)
              && strataDeed.write == old(strataDeed.write))
        && (deployFailure.None? ==>
              && submitError == old(submitError) && currentStep == Tokenizing
              && strataDeed.write == Contracts.Issue(old(strataDeed.write), DeployRequestOf(formData, ctx))
              && rwaTxHash == (if Truthy(old(strataDeed.write.data)) then old(strataDeed.write.data) else old(rwaTxHash)))
    {
      currentStep := Tokenizing;
      var deployed := strataDeed.DeployStrataDeed(ctx.wallet, ctx.coreAddress, formData.targetRaise,
                                                  ctx.wallet.value, "", Contracts.ArgUndefined);
      match deployed {
        case Threw(message) =>
          // `error.message || "Failed to mint property deed"`
          submitError := Some(if message != "" then message else DefaultMintMessage);
          currentStep := Idle;
        case Returned(h) =>
          if Truthy(h) {
            rwaTxHash := h;
          }
      }
    }
  }

  /** The commitment is encoded twice: `handleSubmit` passes the digest as a
      hex string, and the tokenization hook hex-encodes that string's
      characters. A 32-byte digest reaches the contract as 66 bytes of text,
      written with 134 characters. */
  lemma CommitmentEncodedTwice(digest: seq<byte>)
    requires |digest| == 32
    ensures |Utf8.Encode(Hex.Encode0x(digest))| == 66
    ensures |Contracts.CommitmentBytes(Hex.Encode0x(digest))| == 134
  {
    var text := Hex.Encode0x(digest);
    assert forall i :: 0 <= i < |text| ==> text[i] as int < 0x80 by {
      assert text == "0x" + Hex.Encode(digest);
      forall i | 0 <= i < |text|
        ensures text[i] as int < 0x80
      {
        if i >= 2 {
          assert text[i] == Hex.Encode(digest)[i - 2];
        }
      }
    }
    UriEscape.Utf8OfAscii(text);
  }

  /** On a fresh hook, a submission that passes every check, the
      tokenization hook's guards included, issues its mint request and still
      ends idle with the fixed message: the stale hash of the unsettled write
      is undefined. */
  method FirstSubmitReportsNotInitiated(form: MintFormData, ctx: SubmitContext)
    returns (error: Option<string>, step: MintStep, requests: seq<Contracts.WriteRequest>)
    requires GateFailure(ctx.chainId, form).None? && !TargetRaiseInvalid(form, ctx.toNumber)
    requires Tokenization.FirstFailure(ctx.wallet, ctx.nftAddress, PropertyId(ctx.nowMs),
                                       MetadataUri(form, [], ctx), CommitmentOf(form, [], ctx)).None?
    ensures error == Some(NotInitiatedMessage) && step == Idle
    ensures requests == [MintRequestOf(form, [], ctx)]
  {
    var hook := new MintFormHook();
    hook.formData := form;
    hook.HandleSubmit(ctx);
    error, step, requests := hook.submitError, hook.currentStep, hook.tokenization.write.requests;
  }
}
