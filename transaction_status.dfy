/** Whether a mint, and the deployment that follows it when tokenization is
    on, both ended with a successful receipt. */
module TransactionStatus {
  import opened Common

  datatype ReceiptStatus = Success | Reverted

  /** A receipt as the receipt hook reports it; none while waiting or when no
      hash is being watched. */
  type Receipt = Option<ReceiptStatus>

  predicate Succeeded(r: Receipt)
  {
    r == Some(Success)
  }

  /** `isFullySuccessful`: with tokenization both receipts must have
      succeeded; without it the deployment receipt is not consulted. */
  function IsFullySuccessful(mint: Receipt, rwa: Receipt, tokenizationEnabled: bool): (r: bool)
    ensures r ==> Succeeded(mint)
    ensures tokenizationEnabled ==> (r <==> Succeeded(mint) && Succeeded(rwa))
    ensures !tokenizationEnabled ==> (r <==> Succeeded(mint))
  {
    if tokenizationEnabled then mint == Some(Success) && rwa == Some(Success)
    else mint == Some(Success)
  }

  /** A missing mint receipt is never a success. */
  lemma NoMintReceiptFails(rwa: Receipt, tokenizationEnabled: bool)
    ensures !IsFullySuccessful(None, rwa, tokenizationEnabled)
  {
  }

  /** Without tokenization the deployment receipt does not matter. */
  lemma DisabledIgnoresRwa(mint: Receipt, rwa1: Receipt, rwa2: Receipt)
    ensures IsFullySuccessful(mint, rwa1, false) == IsFullySuccessful(mint, rwa2, false)
  {
  }

  /** Success with tokenization implies success without it. */
  lemma EnabledImpliesDisabled(mint: Receipt, rwa: Receipt)
    ensures IsFullySuccessful(mint, rwa, true) ==> IsFullySuccessful(mint, rwa, false)
  {
  }
}
