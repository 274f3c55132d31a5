/** The mint page: a simpler form than the mint form hook. It has no network
    or tokenization step, encodes the metadata with `btoa` directly, reports
    through alerts and resets after a success receipt. */
module MintPage {
  import opened Common
  import Metadata
  import Contracts
  import Files
  import Tokenization
  import TransactionStatus
  import MintForm

  datatype PageForm = PageForm(title: string, location: string, valuation: string,
                               description: string, propertyType: string)

  const DefaultPageForm: PageForm := PageForm("", "", "", "", "residential")

  /** The five query parameters; `None` is a parameter that is absent. */
  datatype Query = Query(title: Option<string>, location: Option<string>, valuation: Option<string>,
                         description: Option<string>, propertyType: Option<string>)

  /** A truthy parameter: present and not empty. */
  predicate Given(v: Option<string>)
  {
    v.Some? && v.value != ""
  }

  /** `v || fallback` */
  function Or(v: Option<string>, fallback: string): (r: string)
    ensures Given(v) ==> r == v.value
    ensures !Given(v) ==> r == fallback
  {
    if Given(v) then v.value else fallback
  }

  predicate AnyGiven(q: Query)
  {
    Given(q.title) || Given(q.location) || Given(q.valuation) || Given(q.description) || Given(q.propertyType)
  }

  /** The prefill effect: when any parameter is given the form becomes the
      parameters, `""` for the missing ones and `"residential"` for a missing
      type; otherwise the form is kept. */
  function Prefill(prev: PageForm, q: Query): (r: PageForm)
    ensures !AnyGiven(q) ==> r == prev
    ensures AnyGiven(q) ==>
      && (Given(q.title) ==> r.title == q.title.value) && (!Given(q.title) ==> r.title == "")
      && (Given(q.location) ==> r.location == q.location.value) && (!Given(q.location) ==> r.location == "")
      && (Given(q.valuation) ==> r.valuation == q.valuation.value) && (!Given(q.valuation) ==> r.valuation == "")
      && (Given(q.description) ==> r.description == q.description.value) && (!Given(q.description) ==> r.description == "")
      && (Given(q.propertyType) ==> r.propertyType == q.propertyType.value)
      && (!Given(q.propertyType) ==> r.propertyType == "residential")
  {
    if AnyGiven(q) then
      PageForm(Or(q.title, ""), Or(q.location, ""), Or(q.valuation, ""), Or(q.description, ""),
               Or(q.propertyType, "residential"))
    else prev
  }

  /** Prefilling twice with the same parameters is prefilling once. */
  lemma PrefillIdempotent(prev: PageForm, q: Query)
    ensures Prefill(Prefill(prev, q), q) == Prefill(prev, q)
  {
  }

  /** A query with all five parameters given makes the form exactly those
      values, whatever it held before. */
  lemma PrefillFull(prev: PageForm, t: string, l: string, v: string, d: string, p: string)
    requires t != "" && l != "" && v != "" && d != "" && p != ""
    ensures Prefill(prev, Query(Some(t), Some(l), Some(v), Some(d), Some(p))) == PageForm(t, l, v, d, p)
  {
  }

  /** The named inputs of the page form. */
  datatype PageField = Title | Location | Valuation | Description | PropertyType

  function PageFieldValue(f: PageForm, field: PageField): string
  {
    match field
    case Title => f.title
    case Location => f.location
    case Valuation => f.valuation
    case Description => f.description
    case PropertyType => f.propertyType
  }

  function SetPageField(f: PageForm, field: PageField, value: string): (r: PageForm)
    ensures PageFieldValue(r, field) == value
    ensures forall g :: g != field ==> PageFieldValue(r, g) == PageFieldValue(f, g)
  {
    match field
    case Title => f.(title := value)
    case Location => f.(location := value)
    case Valuation => f.(valuation := value)
    case Description => f.(description := value)
    case PropertyType => f.(propertyType := value)
  }

  const ConnectMessage: string := "Please connect your wallet first"
  const FillMessage: string := "Please fill in all required fields"
  const NotInitiatedThrow: string := "Transaction failed to initiate"
  const DashboardRoute: string := "/dashboard"

  /** The alert of the catch block: `Error: ${error.message || "Failed to mint property deed"}`. */
  function ErrorAlert(message: string): (r: string)
    ensures message != "" ==> r == "Error: " + message
    ensures message == "" ==> r == "Error: " + MintForm.DefaultMintMessage
  {
    "Error: " + (if message != "" then message else MintForm.DefaultMintMessage)
  }

  /** The values the page's `handleSubmit` takes from outside. `btoaError`
      is the message of the exception `btoa` raises on a character above
      U+00FF. */
  datatype PageContext = PageContext(
    isConnected: bool, wallet: Option<string>, nftAddress: string, isoTime: string, nowMs: nat,
    stringify: Metadata.Json -> string, keccak: seq<byte> -> seq<byte>, btoaError: string)

  /** The page's metadata object: no `tokenization` member. */
  function PageMetadataJson(f: PageForm, files: seq<Files.FileInfo>, isoTime: string): (r: Metadata.Json)
    ensures r.JObj? && Metadata.Keys(r.members) == ["name", "description", "location", "type", "valuation", "timestamp", "files"]
  {
    Metadata.JObj([("name", Metadata.JStr(f.title)), ("description", Metadata.JStr(f.description)),
                   ("location", Metadata.JStr(f.location)), ("type", Metadata.JStr(f.propertyType)),
                   ("valuation", Metadata.JStr(f.valuation)), ("timestamp", Metadata.JStr(isoTime)),
                   ("files", Metadata.StrArray(MintForm.FileNames(files)))])
  }

  /** The JSON text `btoa` is applied to. */
  function MetadataText(f: PageForm, files: seq<Files.FileInfo>, ctx: PageContext): string
  {
    ctx.stringify(PageMetadataJson(f, files, ctx.isoTime))
  }

  predicate WalletMissing(ctx: PageContext)
  {
    !ctx.isConnected || ctx.wallet.None? || ctx.wallet.value == ""
  }

  predicate FieldsMissing(f: PageForm)
  {
    f.title == "" || f.location == "" || f.valuation == ""
  }

  class MintPageState {
    var formData: PageForm
    var selectedFiles: seq<Files.FileInfo>
    var txHash: Option<string>
    /** Every `alert` shown, in order. */
    var alerts: seq<string>
    /** Every route pushed, in order. */
    var navigations: seq<string>
    const tokenization: Tokenization.TokenizationHook

    constructor()
      ensures formData == DefaultPageForm && selectedFiles == [] && txHash == None
      ensures alerts == [] && navigations == []
      ensures fresh(tokenization) && tokenization.error == None && tokenization.write == Contracts.IdleWrite
    {
      formData := DefaultPageForm;
      selectedFiles := [];
      txHash := None;
      alerts := [];
      navigations := [];
      tokenization := new Tokenization.TokenizationHook();
    }

    /** `isMinting || isWaitingReceipt`. */
    function IsProcessing(confirming: bool, waitingReceipt: bool): (r: bool)
      reads this, tokenization
      ensures r <==> tokenization.write.isPending || confirming || waitingReceipt
    {
      tokenization.Loading(confirming) || waitingReceipt
    }

    /** The prefill effect, run when the query changes. */
    method ApplyQuery(q: Query)
      modifies this
      ensures formData == Prefill(old(formData), q)
      ensures selectedFiles == old(selectedFiles) && txHash == old(txHash)
      ensures alerts == old(alerts) && navigations == old(navigations)
    {
      formData := Prefill(formData, q);
    }

    method HandleFileSelect(files: seq<Files.FileInfo>)
      modifies this
      ensures selectedFiles == Files.AppendCapped(old(selectedFiles), files)
      ensures formData == old(formData) && txHash == old(txHash)
      ensures alerts == old(alerts) && navigations == old(navigations)
    {
      selectedFiles := Files.AppendCapped(selectedFiles, files);
    }

    method HandleRemoveFile(index: int)
      modifies this
      ensures selectedFiles == Files.RemoveAt(old(selectedFiles), index)
      ensures formData == old(formData) && txHash == old(txHash)
      ensures alerts == old(alerts) && navigations == old(navigations)
    {
      selectedFiles := Files.RemoveAt(selectedFiles, index);
    }

    method HandleInputChange(field: PageField, value: string)
      modifies this
      ensures formData == SetPageField(old(formData), field, value)
      ensures selectedFiles == old(selectedFiles) && txHash == old(txHash)
      ensures alerts == old(alerts) && navigations == old(navigations)
    {
      formData := SetPageField(formData, field, value);
    }

    /** `handleSubmit` on the page. The wallet is checked before the fields;
        a `btoa` failure is caught before the contract is called; the mint is
        called without an owner. */
    method HandleSubmit(ctx: PageContext)
      modifies this, tokenization
      ensures formData == old(formData) && selectedFiles == old(selectedFiles)
      ensures navigations == old(navigations)
      ensures WalletMissing(ctx) ==>
        && alerts == old(alerts) + [ConnectMessage] && txHash == old(txHash)
        && tokenization.write == old(tokenization.write) && tokenization.error == old(tokenization.error)
      ensures !WalletMissing(ctx) && FieldsMissing(formData) ==>
        && alerts == old(alerts) + [FillMessage] && txHash == old(txHash)
        && tokenization.write == old(tokenization.write) && tokenization.error == old(tokenization.error)
      ensures !WalletMissing(ctx) && !FieldsMissing(formData) &&
              Metadata.Latin1DataUri(MetadataText(formData, selectedFiles, ctx)).None? ==>
        && alerts == old(alerts) + [ErrorAlert(ctx.btoaError)] && txHash == old(txHash)
        && tokenization.write == old(tokenization.write) && tokenization.error == old(tokenization.error)
      ensures !WalletMissing(ctx) && !FieldsMissing(formData) &&
              Metadata.Latin1DataUri(MetadataText(formData, selectedFiles, ctx)).Some? ==>
        var uri := Metadata.Latin1DataUri(MetadataText(formData, selectedFiles, ctx)).value;
        var propertyId := MintForm.PropertyId(ctx.nowMs);
        var commitment := MintForm.PrivateCommitment(formData.valuation, selectedFiles, ctx.nowMs, ctx.stringify, ctx.keccak);
        var guard := Tokenization.FirstFailure(ctx.wallet, ctx.nftAddress, propertyId, uri, commitment);
        && tokenization.error == guard
        && tokenization.write ==
             (if guard.None? then Contracts.Issue(old(tokenization.write),
                Tokenization.MintRequest(ctx.nftAddress, propertyId, uri, commitment, Contracts.ArgUndefined))
              else old(tokenization.write))
        && var accepted := guard.None? && MintForm.Truthy(old(tokenization.write.data));
           && (accepted ==> txHash == old(tokenization.write.data) && alerts == old(alerts))
           && (!accepted ==> txHash == old(txHash) && alerts == old(alerts) + [ErrorAlert(NotInitiatedThrow)])
    {
      if !ctx.isConnected || ctx.wallet.None? || ctx.wallet.value == "" {
        alerts := alerts + [ConnectMessage];
        return;
      }
      if formData.title == "" || formData.location == "" || formData.valuation == "" {
        alerts := alerts + [FillMessage];
        return;
      }
      var uri := Metadata.Latin1DataUri(MetadataText(formData, selectedFiles, ctx));
      if uri.None? {
        alerts := alerts + [ErrorAlert(ctx.btoaError)];
        return;
      }
      Tokenize(ctx, MintForm.PropertyId(ctx.nowMs), uri.value,
               MintForm.PrivateCommitment(formData.valuation, selectedFiles, ctx.nowMs, ctx.stringify, ctx.keccak));
    }

    /** Past the checks: the deed mint through the tokenization hook, with
        the property id, data URI and commitment the handler computed. A
        result without a hash is thrown and alerted. */
    method Tokenize(ctx: PageContext, propertyId: string, uri: string, commitment: string)
      modifies this, tokenization
      ensures formData == old(formData) && selectedFiles == old(selectedFiles)
      ensures navigations == old(navigations)
      ensures
        var guard := Tokenization.FirstFailure(ctx.wallet, ctx.nftAddress, propertyId, uri, commitment);
        && tokenization.error == guard
        && tokenization.write ==
             (if guard.None? then Contracts.Issue(old(tokenization.write),
                Tokenization.MintRequest(ctx.nftAddress, propertyId, uri, commitment, Contracts.ArgUndefined))
              else old(tokenization.write))
        && var accepted := guard.None? && MintForm.Truthy(old(tokenization.write.data));
           && (accepted ==> txHash == old(tokenization.write.data) && alerts == old(alerts))
           && (!accepted ==> txHash == old(txHash) && alerts == old(alerts) + [ErrorAlert(NotInitiatedThrow)])
    {
      var result := tokenization.TokenizeProperty(ctx.wallet, ctx.nftAddress, propertyId, uri, "0",
                                                  commitment, Contracts.ArgUndefined);
      if result.success && MintForm.Truthy(result.hash) {
        txHash := result.hash;
      } else {
        alerts := alerts + [ErrorAlert(NotInitiatedThrow)];
      }
    }

    /** The success effect: on a successful receipt the user either goes to
        the dashboard or gets back an empty form. Any other receipt changes
        nothing. */
    method OnReceipt(receipt: TransactionStatus.Receipt, shouldView: bool)
      modifies this
      ensures alerts == old(alerts)
      ensures !TransactionStatus.Succeeded(receipt) ==>
        formData == old(formData) && selectedFiles == old(selectedFiles) && txHash == old(txHash) && navigations == old(navigations)
      ensures TransactionStatus.Succeeded(receipt) && shouldView ==>
        navigations == old(navigations) + [DashboardRoute] &&
        formData == old(formData) && selectedFiles == old(selectedFiles) && txHash == old(txHash)
      ensures TransactionStatus.Succeeded(receipt) && !shouldView ==>
        navigations == old(navigations) && formData == DefaultPageForm && selectedFiles == [] && txHash == None
    {
      if TransactionStatus.Succeeded(receipt) {
        if shouldView {
          navigations := navigations + [DashboardRoute];
        } else {
          txHash := None;
          formData := DefaultPageForm;
          selectedFiles := [];
        }
      }
    }
  }

  /** A character above U+00FF anywhere in the metadata text stops the
      submission before the contract is called. */
  lemma WideCharacterStopsSubmission(f: PageForm, files: seq<Files.FileInfo>, ctx: PageContext, i: nat)
    requires i < |MetadataText(f, files, ctx)| && MetadataText(f, files, ctx)[i] as int >= 256
    ensures Metadata.Latin1DataUri(MetadataText(f, files, ctx)).None?
  {
  }

  /** On a fresh page a submission that passes the tokenization hook's
      guards issues its mint request and still alerts that the transaction
      failed to initiate, because the hook returns the hash held before its
      write. */
  method FirstPageSubmitAlerts(form: PageForm, ctx: PageContext)
    returns (alerts: seq<string>, hash: Option<string>, issued: nat)
    requires !WalletMissing(ctx) && !FieldsMissing(form)
    requires Metadata.Latin1DataUri(MetadataText(form, [], ctx)).Some?
    requires Tokenization.FirstFailure(ctx.wallet, ctx.nftAddress, MintForm.PropertyId(ctx.nowMs),
               Metadata.Latin1DataUri(MetadataText(form, [], ctx)).value,
               MintForm.PrivateCommitment(form.valuation, [], ctx.nowMs, ctx.stringify, ctx.keccak)).None?
    ensures alerts == [ErrorAlert(NotInitiatedThrow)] && hash.None?
    ensures issued == 1
  {
    var page := new MintPageState();
    page.formData := form;
    page.HandleSubmit(ctx);
    alerts, hash, issued := page.alerts, page.txHash, |page.tokenization.write.requests|;
  }
}
