# StrataDeed — a Dafny model of the dApp's core

StrataDeed is a Next.js front end for tokenising real estate on Avalanche. A
user fills in a property form. The app then builds a JSON metadata document,
packs it into a `data:` URI and derives a private commitment. It mints a
property deed NFT with a contract write and, when tokenisation is enabled,
deploys the fractional token through the StrataDeed core contract. A
marketplace page lists sample properties with search, filters, sorting, a
cart and a wishlist. Several landing-page components are small state
machines: the "how it works" carousel, the comparison rotator and the FAQ
accordion. Two library files score web-vitals readings and compare objects
shallowly.

This project models that core, one Dafny module per source file, plus
shared modules for the encodings the source relies on:

- `JsString`: the JavaScript string built-ins used (`toLowerCase` on ASCII,
  `includes`, `trim`, `padStart`, `Number.prototype.toString(radix)`,
  `slice`, the truncating `%`) and the JavaScript number as a value that is
  `NaN`, an infinity or finite.
- `Utf8`, `Base64`, `Hex` and `UriEscape`: `TextEncoder`, `btoa`, the
  byte-to-hex mapping, and `encodeURIComponent` followed by the `%XX`
  replacement, each proved against its decoder.
- `Metadata`: JSON values and the two `data:` URI constructions.
- `Chains` and `Contracts`: the chain table, the contract addresses, the ABI
  signatures actually called, and wagmi's write hook state (`Issue` and
  `Settle`).
- `Tokenization`, `StrataDeed` and `TransactionStatus`: the three contract hooks.
- `MintForm` (the `useMintForm` hook) and `MintPage` (the mint page).
- `Files`: the shared file list with its cap of five files.
- `Marketplace`, `FilterSidebar`, `MarketplaceHeader`, `PropertyGrid` and
  `MarketInsights`: the marketplace page and its components.
- `AuthGuard`, `HowItWorks`, `Comparison` and `AboutFaq`: the other UI components.
- `WebVitals` and `Performance`: the two library files.

React state becomes classes whose methods are the event handlers. A
`setState` is modelled as a field assignment that takes effect before the
next event. A contract write records its request in the hook's state; the
write's completion is a separate `OnWriteSettled` event. JSON
serialisation, keccak-256, `Number()`, `Date.now()` and the ISO clock are
parameters of the submit handlers.

Behaviour that the model exhibits as written:

- `useMintForm` demands chain id 5003, but the only chains configured are
  43113 and 43114 (`MintForm.GateFailure`, `Chains.NoChain5003`).
- `tokenizeProperty` returns the transaction hash held before its own write
  was issued. The first submission therefore reports success with no hash
  (`Tokenization.FirstSubmitHasNoHash`). When every guard of the hook passes
  and the mint request is issued, `handleSubmit` in `useMintForm` still
  treats this as "Transaction was not initiated"
  (`MintForm.FirstSubmitReportsNotInitiated`), and the mint page shows an
  alert (`MintPage.FirstPageSubmitAlerts`).
- `handleSubmit` calls `deployStrataDeed` with three arguments, which fill
  the first three of its four parameters. The hook then writes four
  arguments to `createProperty`: the target raise as the property id, the
  account as the metadata URI, the empty commitment `0x` and an `undefined`
  owner. Only the `undefined` owner stops them from fitting the function's
  ABI (`MintForm.DeployRequestOf`).
- The hex commitment from keccak-256 is UTF-8 encoded and hex-encoded a
  second time before it is sent (`MintForm.CommitmentEncodedTwice`).
- The mint page's `btoa` throws on any character above U+00FF
  (`MintPage.WideCharacterStopsSubmission`).
- The performance score averages points worth 5 to 25 against grade
  cut-offs of 50 to 90, so every report is graded "F"
  (`WebVitals.AlwaysGradeF`).
- `shallowEqual` is not reflexive on `NaN` values, and it is not symmetric
  when a value is `undefined` (`Performance.SelfEqualUnlessNaN`,
  `Performance.MissingKeyReadsUndefined`).
- The filter sidebar computes its list of active filters once, at mount
  (`FilterSidebar.StaleAfterRerender`).

## Model

| member | source | states |
|---|---|---|
| JsString.ToLowerChar | src/app/marketplace/page.tsx:135-139 | letters A–Z move up by 32; anything else is unchanged; no upper-case letter remains |
| JsString.ToLowerCase | src/app/marketplace/page.tsx:135-139 | same length, each character lowered on its own |
| JsString.ToLowerCaseIdempotent | src/app/marketplace/page.tsx:135-139 | lowering twice is lowering once |
| JsString.Includes | src/app/marketplace/page.tsx:135-139 | true iff `sub` occurs at some offset of `s` |
| JsString.IncludesEmpty | src/components/marketplace/MarketplaceHeader.tsx:39-48 | every string includes the empty string |
| JsString.IncludesSelf | src/components/marketplace/MarketplaceHeader.tsx:39-48 | every string includes itself |
| JsString.NotIncludesMissingChar | src/hooks/useTokenization.ts:101-104 | a string lacking one character of `sub` does not include `sub` |
| JsString.LacksPairAppend | src/hooks/useTokenization.ts:101-104 | two strings without an adjacent pair, joined without creating it, still lack it |
| JsString.NotIncludesMissingPair | src/hooks/useTokenization.ts:101-104 | a string without `sub`'s first two characters adjacent does not include `sub` |
| JsString.TrimStart | src/hooks/useTokenization.ts:64-69 | a suffix of the input starting with non-whitespace; empty iff the input is blank |
| JsString.TrimStartDropsBlank | src/hooks/useTokenization.ts:64-69 | the prefix `trimStart` drops is all whitespace |
| JsString.TrimEnd | src/hooks/useTokenization.ts:64-69 | a prefix of the input ending with non-whitespace; empty iff the input is blank |
| JsString.TrimEndDropsBlank | src/hooks/useTokenization.ts:64-69 | the suffix `trimEnd` drops is all whitespace |
| JsString.Trim | src/hooks/useTokenization.ts:64-69 | no longer than the input |
| JsString.TrimEnds | src/hooks/useTokenization.ts:64-69 | when the trimmed string is non-empty, neither of its ends is whitespace |
| JsString.TrimIsMiddle | src/hooks/useTokenization.ts:64-69 | the trimmed string is the stretch of the input after its leading whitespace, and only whitespace follows it |
| JsString.TrimEmptyIffBlank | src/hooks/useTokenization.ts:64-69 | `trim().length === 0` exactly when every character is whitespace |
| JsString.PadStart | src/app/about/page.tsx:923 | length is the maximum of the target and the input; the input is a suffix; the rest is fill |
| JsString.DigitRoundTrip | src/hooks/useTokenization.ts:78 | the digit character of `d` reads back as `d` |
| JsString.NatToString | src/hooks/useTokenization.ts:78 | non-empty; a single digit iff `n < radix`; no leading zero unless `n` is 0 |
| JsString.NatToStringRoundTrip | src/hooks/useTokenization.ts:78 | the digits read back in the same radix give `n` |
| JsString.NatToDecimal | src/app/about/page.tsx:923 | `String(n)`: non-empty decimal digits that read back as `n`, with no leading zero unless `n` is 0 |
| JsString.DecimalDigits | src/app/about/page.tsx:923 | in base 10 every character written is a digit `0`-`9` |
| JsString.SliceTo | src/hooks/useMintForm.ts:33 | `slice(0, end)` is the prefix of the length JavaScript gives, negative ends counting from the back |
| JsString.JsRem | src/components/marketplace/PropertyGrid.tsx:59 | ECMAScript `%`: `a == TruncDiv(a, b) * b + r` with the quotient truncated toward zero, and `r` takes the sign of `a` with magnitude below that of `b` |
| Utf8.EncodeChar | src/hooks/useTokenization.ts:75-79 | 1 to 4 bytes; one byte iff ASCII; a valid lead byte followed by continuation bytes |
| Utf8.Encode | src/hooks/useTokenization.ts:75-79 | between one and four bytes per character |
| Utf8.DecodeFirst | src/hooks/useTokenization.ts:75-79 | a decoded character consumes 1 to 4 bytes of the input |
| Utf8.DecodeFirstOfEncodeChar | src/hooks/useTokenization.ts:75-79 | decoding an encoded character returns it and its length, whatever follows |
| Utf8.DecodeEncode | src/hooks/useTokenization.ts:75-79 | `TextEncoder` output decodes back to the string |
| Utf8.EncodeInjective | src/hooks/useTokenization.ts:75-79 | different strings give different byte sequences |
| Base64.CharOf | src/hooks/useMintForm.ts:90 | an alphabet character, never the padding `=` |
| Base64.IndexOf | src/hooks/useMintForm.ts:90 | a sextet value, or -1 off the alphabet |
| Base64.IndexOfCharOf | src/hooks/useMintForm.ts:90 | the alphabet maps each sextet back to itself |
| Base64.EncodeBlock | src/hooks/useMintForm.ts:90 | three bytes give four characters |
| Base64.EncodeFinalOne | src/hooks/useMintForm.ts:90 | a final single byte gives four characters |
| Base64.EncodeFinalTwo | src/hooks/useMintForm.ts:90 | two final bytes give four characters |
| Base64.Encode | src/hooks/useMintForm.ts:90 | output length is four per started block of three |
| Base64.DecodeGroup | src/hooks/useMintForm.ts:90 | a decoded group yields one to three bytes |
| Base64.DecodeEncodeBlock | src/hooks/useMintForm.ts:90 | a full block decodes back to its three bytes |
| Base64.DecodePaddedTwo | src/hooks/useMintForm.ts:90 | a group with two pad characters decodes to one byte |
| Base64.DecodePaddedOne | src/hooks/useMintForm.ts:90 | a group with one pad character decodes to two bytes |
| Base64.DecodeFinalOne | src/hooks/useMintForm.ts:90 | a final single byte decodes back |
| Base64.TwoByteDigits | src/hooks/useMintForm.ts:90 | the three sextets of two bytes recombine to those bytes |
| Base64.DecodeFinalTwo | src/hooks/useMintForm.ts:90 | two final bytes decode back |
| Base64.DecodeEncodeFinal | src/hooks/useMintForm.ts:90 | a one- or two-byte tail round-trips |
| Base64.DecodeEncode | src/hooks/useMintForm.ts:90 | `btoa` output decodes to the bytes it encoded |
| Base64.EncodeIsAscii | src/hooks/useMintForm.ts:90 | every output character is ASCII |
| Hex.EncodeByte | src/hooks/useTokenization.ts:78 | two characters per byte |
| Hex.PaddedToStringIsEncodeByte | src/hooks/useTokenization.ts:78 | `b.toString(16).padStart(2, "0")` is the two-digit lower-case encoding |
| Hex.Encode | src/hooks/useTokenization.ts:75-79 | twice as many characters as bytes, all lower-case hex digits |
| Hex.Encode0x | src/hooks/useTokenization.ts:75-79 | `0x` followed by two characters per byte |
| Hex.NibbleOf | src/hooks/useTokenization.ts:78 | a nibble value exactly for lower-case hex digits |
| Hex.Decode | src/hooks/useTokenization.ts:75-79 | a decoded string has two characters per byte |
| Hex.DecodeEncode | src/hooks/useTokenization.ts:75-79 | the hex text decodes back to the bytes |
| Hex.DecodeEncode0x | src/hooks/useTokenization.ts:75-79 | the `0x` text decodes back to the bytes |
| UriEscape.UpperHexChar | src/hooks/useMintForm.ts:90 | an upper-case hex digit |
| UriEscape.UpperHexValue | src/hooks/useMintForm.ts:90 | `parseInt(p1, 16)` of one digit is below 16 |
| UriEscape.PercentByte | src/hooks/useMintForm.ts:90 | `%` and two digits |
| UriEscape.PercentBytes | src/hooks/useMintForm.ts:90 | three characters per byte, all escape output |
| UriEscape.EscapeChar | src/hooks/useMintForm.ts:90 | `encodeURIComponent` of one character gives only unreserved characters and escapes |
| UriEscape.EncodeUriComponent | src/hooks/useMintForm.ts:90 | the whole output consists of unreserved characters and escapes |
| UriEscape.ReplacePercentEscapes | src/hooks/useMintForm.ts:90 | replacing `%XX` never lengthens the text |
| UriEscape.Latin1 | src/hooks/useMintForm.ts:90 | one character per byte, with the byte's code |
| UriEscape.Latin1Bytes | src/app/mint/page.tsx:100 | one byte per character below U+0100, with its code |
| UriEscape.Btoa | src/app/mint/page.tsx:100 | `btoa` fails exactly when some character is above U+00FF |
| UriEscape.ReplacePercentByte | src/hooks/useMintForm.ts:90 | one escape becomes the character with that byte's code |
| UriEscape.ReplacePercentBytes | src/hooks/useMintForm.ts:90 | a run of escapes becomes the Latin-1 string of its bytes |
| UriEscape.Latin1Append | src/hooks/useMintForm.ts:90 | the Latin-1 reading of a concatenation is the concatenation of the readings |
| UriEscape.ReplaceAfterEncodeIsUtf8 | src/hooks/useMintForm.ts:90 | escaping then replacing yields the UTF-8 bytes of the text as Latin-1 characters |
| UriEscape.BtoaLatin1 | src/hooks/useMintForm.ts:90 | `btoa` of such a string is the Base64 of those bytes |
| UriEscape.Utf8OfAscii | src/app/mint/page.tsx:100 | on ASCII text the UTF-8 bytes read as Latin-1 give the text back |
| Metadata.Keys | src/hooks/useMintForm.ts:71-86 | the member names, in order |
| Metadata.StrArray | src/hooks/useMintForm.ts:78 | an array of the strings, in order |
| Metadata.Utf8DataUri | src/hooks/useMintForm.ts:89-90 | the prefix followed by the Base64 of the JSON's UTF-8 bytes |
| Metadata.Latin1DataUri | src/app/mint/page.tsx:100 | fails exactly when some character is above U+00FF |
| Metadata.Utf8DataUriRoundTrip | src/hooks/useMintForm.ts:89-90 | the hook's URI decodes to the UTF-8 bytes of the JSON, and those decode to the JSON |
| Metadata.Latin1DataUriRoundTrip | src/app/mint/page.tsx:100 | the page's URI decodes to the Latin-1 bytes of the JSON |
| Metadata.AsciiUrisAgree | src/app/mint/page.tsx:100 | on ASCII JSON the hook's and the page's URIs are equal |
| Metadata.Latin1UriIsNotUtf8 | src/app/mint/page.tsx:100 | for "é" the page's URI carries a byte that is not valid UTF-8 |
| Chains.CurrentNetwork | src/config/web3/chains.ts:36 | the environment value when set and non-empty, else "fuji" |
| Chains.GetChain | src/config/web3/chains.ts:39-47 | a supported chain; mainnet exactly for "mainnet", Fuji otherwise |
| Chains.DefaultChain | src/config/web3/chains.ts:36-47 | with no environment value the chain is Fuji |
| Chains.SupportedChainsShape | src/config/web3/chains.ts:33 | the first supported chain is the testnet, and the ids differ |
| Chains.NoChain5003 | src/config/web3/chains.ts:6-47 | no configured chain has id 5003 |
| Contracts.AddressOr | src/config/contracts.ts:14-21 | the environment value, or "" when unset or empty |
| Contracts.Resolve | src/config/contracts.ts:14-21 | each address comes from its own variable |
| Contracts.ConfiguredFromEnv | src/config/contracts.ts:253-255 | configured iff both the NFT and core variables are set and non-empty |
| Contracts.ConfiguredIgnoresOthers | src/config/contracts.ts:253-255 | the fractional and verifier addresses do not matter |
| Contracts.Issue | src/hooks/useTokenization.ts:81-91 | the request is appended, the write is pending, and data and error are cleared |
| Contracts.Settle | src/hooks/useTokenization.ts:123 | no longer pending; a hash on success, an error message on failure |
| Contracts.IssueThenSettle | src/hooks/useTokenization.ts:81-97 | after issue and settle the hash is that of the outcome, and one request is recorded |
| Contracts.CommitmentBytes | src/hooks/useTokenization.ts:75-79 | `0x` and two digits per UTF-8 byte, decoding back to those bytes |
| Contracts.CommitmentBytesInjective | src/hooks/useTokenization.ts:75-79 | different commitments give different byte arguments |
| Contracts.CalledSignatures | src/config/contracts.ts:27-38 | the inputs of the four called functions; `depositEscrow` is payable and takes none |
| Contracts.DeedArgsConform | src/config/contracts.ts:27-38 | the mint's id, URI, bytes and address arguments fit `mintPropertyDeed` |
| Tokenization.IsBlankInputIffWhitespace | src/hooks/useTokenization.ts:64-69 | `!s \|\| s.trim().length === 0` iff every character is whitespace |
| Tokenization.FirstFailure | src/hooks/useTokenization.ts:53-72 | the guards in order: wallet, NFT address, blank id, blank URI, empty commitment; none fails iff all hold |
| Tokenization.NormaliseError | src/hooks/useTokenization.ts:98-108 | a rejection message maps to the fixed text, another message is kept, none gives the default |
| Tokenization.KeptByMissingChars | src/hooks/useTokenization.ts:101-104 | a message lacking a character of each phrase is not a rejection |
| Tokenization.KeptByMissingPair | src/hooks/useTokenization.ts:101-104 | a message lacking a character of "User rejected" and the pair "de" is not a rejection |
| Tokenization.WalletMessageKept | src/hooks/useTokenization.ts:54 | the wallet message is not read as a rejection |
| Tokenization.NotConfiguredMessageKept | src/hooks/useTokenization.ts:58-60 | the configuration message is not read as a rejection |
| Tokenization.EmptyIdMessageKept | src/hooks/useTokenization.ts:65 | the empty-id message is not read as a rejection |
| Tokenization.EmptyUriMessageKept | src/hooks/useTokenization.ts:68 | the empty-URI message is not read as a rejection |
| Tokenization.NoCommitmentMessageKept | src/hooks/useTokenization.ts:71 | the commitment message is not read as a rejection |
| Tokenization.RejectedMessageKept | src/hooks/useTokenization.ts:105 | the rejection text does not itself mention a rejection |
| Tokenization.DefaultMessageKept | src/hooks/useTokenization.ts:99 | the default text is not read as a rejection |
| Tokenization.GuardMessagesKept | src/hooks/useTokenization.ts:53-108 | every guard message leaves the catch block unchanged |
| Tokenization.NormaliseErrorIdempotent | src/hooks/useTokenization.ts:98-108 | normalising twice is normalising once |
| Tokenization.MintRequest | src/hooks/useTokenization.ts:75-91 | target, function and arguments of the mint; they fit the ABI iff the owner is an address |
| Tokenization.TokenizationHook.constructor | src/hooks/useTokenization.ts:22-29 | no error and an idle write |
| Tokenization.TokenizationHook.ExposedError | src/hooks/useTokenization.ts:123 | the hook's own error wins over the write's error; never an empty message |
| Tokenization.TokenizationHook.TokenizeProperty | src/hooks/useTokenization.ts:43-118 | a failed guard sets the error and writes nothing; otherwise one mint request is issued and the hash held before it is returned |
| Tokenization.TokenizationHook.OnWriteSettled | src/hooks/useTokenization.ts:123-124 | the write settles with the outcome; the hook's error is unchanged |
| Tokenization.FirstSubmitHasNoHash | src/hooks/useTokenization.ts:93-97 | a first successful call reports success with no hash |
| StrataDeed.CoreFailure | src/hooks/useStrataDeed.ts:34-37 | the wallet first, then the core address; none iff both are present |
| StrataDeed.CreatePropertyRequest | src/hooks/useStrataDeed.ts:39-55 | the `createProperty` request; it fits the ABI iff the owner is an address |
| StrataDeed.FractionalizeRequest | src/hooks/useStrataDeed.ts:76-88 | `fractionalizeProperty` on the core contract with no value, the five arguments in source order; they fit the ABI iff the three integers are in `uint256` range |
| StrataDeed.FractionalizeRequestInjective | src/hooks/useStrataDeed.ts:76-88 | equal requests come only from equal arguments |
| StrataDeed.DepositRequest | src/hooks/useStrataDeed.ts:98-107 | `depositEscrow` on the token contract with no arguments, payable, sending the amount |
| StrataDeed.StrataDeedHook.constructor | src/hooks/useStrataDeed.ts:18-20 | not deploying, idle write |
| StrataDeed.StrataDeedHook.DeployStrataDeed | src/hooks/useStrataDeed.ts:26-63 | a guard failure throws and writes nothing; otherwise one request, the earlier hash is returned, and the flag is cleared either way |
| StrataDeed.StrataDeedHook.FractionalizeProperty | src/hooks/useStrataDeed.ts:69-89 | the same guards, one fractionalise request, the earlier hash |
| StrataDeed.StrataDeedHook.DepositEscrow | src/hooks/useStrataDeed.ts:94-108 | only the wallet is checked; one deposit request |
| StrataDeed.StrataDeedHook.OnWriteSettled | src/hooks/useStrataDeed.ts:114 | the write settles; the flag is unchanged |
| TransactionStatus.IsFullySuccessful | src/hooks/useTransactionStatus.ts:16-18 | with tokenisation both receipts must succeed, otherwise only the mint's |
| TransactionStatus.NoMintReceiptFails | src/hooks/useTransactionStatus.ts:16-18 | without a mint receipt nothing is successful |
| TransactionStatus.DisabledIgnoresRwa | src/hooks/useTransactionStatus.ts:16-18 | with tokenisation off the second receipt is irrelevant |
| TransactionStatus.EnabledImpliesDisabled | src/hooks/useTransactionStatus.ts:16-18 | success with tokenisation implies success without it |
| Files.AppendCapped | src/hooks/useMintForm.ts:32-34 | the old files stay first, then a prefix of the new ones, up to five in all |
| Files.AppendCappedBound | src/hooks/useMintForm.ts:32-34 | starting from at most five files the list stays at most five |
| Files.AppendCappedFull | src/hooks/useMintForm.ts:32-34 | with a full list or no new files nothing changes |
| Files.DropIndex | src/hooks/useMintForm.ts:41-43 | exactly the element at the index is dropped, when it exists |
| Files.RemoveAtSpec | src/hooks/useMintForm.ts:41-43 | the list without that index; an out-of-range index changes nothing |
| Files.RemoveAtBound | src/hooks/useMintForm.ts:41-43 | removing never grows the list |
| MintForm.SetField | src/hooks/useMintForm.ts:36-39 | the named field takes the value and every other field keeps its own |
| MintForm.GateFailure | src/hooks/useMintForm.ts:51-59 | the chain check first, then the three required fields; passes iff chain 5003 and all three set |
| MintForm.TokenizationJson | src/hooks/useMintForm.ts:79-85 | `{enabled: false}` exactly when tokenisation is off, else the enabled block |
| MintForm.FileNames | src/hooks/useMintForm.ts:78 | the file names, in order |
| MintForm.NamesWithSizes | src/hooks/useMintForm.ts:98 | each file's name followed by its size, in order |
| MintForm.MetadataUri | src/hooks/useMintForm.ts:71-90 | the URI decodes to the UTF-8 bytes of the serialised metadata |
| MintForm.PropertyId | src/hooks/useMintForm.ts:93 | `PROP-` followed by the decimal digits of the time |
| MintForm.PrivateCommitment | src/hooks/useMintForm.ts:96-101 | the hex text of keccak-256 over the private data's UTF-8 bytes |
| MintForm.OwnerArg | src/hooks/useMintForm.ts:106-112 | an address argument iff a wallet is connected |
| MintForm.DeployRequestOf | src/hooks/useMintForm.ts:123-132 | the four arguments passed, which never fit `createProperty`'s signature |
| MintForm.NotInitiated | src/hooks/useMintForm.ts:133-135 | the hook's error when set, else the fixed message; never empty |
| MintForm.MintFormHook.constructor | src/hooks/useMintForm.ts:20-30 | default form, no files or hashes, idle |
| MintForm.MintFormHook.IsProcessing | src/hooks/useMintForm.ts:162 | loading, deploying or any step other than idle |
| MintForm.MintFormHook.HandleFileSelect | src/hooks/useMintForm.ts:32-34 | files appended up to the cap; nothing else changes |
| MintForm.MintFormHook.HandleRemoveFile | src/hooks/useMintForm.ts:41-43 | the file at the index is removed; nothing else changes |
| MintForm.MintFormHook.HandleInputChange | src/hooks/useMintForm.ts:36-39 | one field set; nothing else changes |
| MintForm.MintFormHook.ResetForm | src/hooks/useMintForm.ts:144-160 | form, files, hashes and step back to their defaults |
| MintForm.MintFormHook.HandleSubmit | src/hooks/useMintForm.ts:45-142 | each branch of the submit: gate errors, the target-raise error, the one mint attempt, the run without a hash, and the deploy |
| MintForm.MintFormHook.Mint | src/hooks/useMintForm.ts:89-141 | given the property id, URI and commitment the handler computed, the mint request is issued exactly when the tokenization guard passes; without an accepted hash the step returns to idle with the not-initiated message; with one the hash is kept, and the deploy follows only when tokenization is enabled |
| MintForm.MintFormHook.Accepted | src/hooks/useMintForm.ts:114-132 | the returned hash is kept; with tokenization off nothing else changes and no deploy is issued; with it on the deploy outcome follows |
| MintForm.MintFormHook.Deploy | src/hooks/useMintForm.ts:122-141 | a deploy that fails its checks leaves the step idle with that message and issues nothing; otherwise the step is tokenizing, the deploy request carries the target raise and the wallet, and a truthy hash is recorded |
| MintForm.CommitmentEncodedTwice | src/hooks/useMintForm.ts:96-112 | a 32-byte digest becomes 66 characters, then 134 characters of bytes argument |
| MintForm.FirstSubmitReportsNotInitiated | src/hooks/useMintForm.ts:106-135 | a first submission that passes the form's and the tokenization hook's checks issues exactly its one mint request and still ends idle with the not-initiated error |
| MintPage.Or | src/app/mint/page.tsx:43-59 | the query value when non-empty, else the fallback |
| MintPage.Prefill | src/app/mint/page.tsx:43-59 | no change without a query value; otherwise each field comes from the query, or is `""` (`"residential"` for the type) when missing |
| MintPage.PrefillIdempotent | src/app/mint/page.tsx:43-59 | prefilling twice is prefilling once |
| MintPage.PrefillFull | src/app/mint/page.tsx:43-59 | a full query replaces the whole form |
| MintPage.SetPageField | src/app/mint/page.tsx:65-68 | the named field takes the value and the others keep theirs |
| MintPage.ErrorAlert | src/app/mint/page.tsx:129-132 | "Error: " and the message, or the default text when it is empty |
| MintPage.PageMetadataJson | src/app/mint/page.tsx:89-97 | an object with the seven keys in order |
| MintPage.MintPageState.constructor | src/app/mint/page.tsx:34-40 | default form, no files, no hash, no alerts or navigations |
| MintPage.MintPageState.IsProcessing | src/app/mint/page.tsx:158 | pending, confirming or waiting for the receipt |
| MintPage.MintPageState.ApplyQuery | src/app/mint/page.tsx:43-59 | the form is prefilled; nothing else changes |
| MintPage.MintPageState.HandleFileSelect | src/app/mint/page.tsx:61-63 | files appended up to the cap |
| MintPage.MintPageState.HandleRemoveFile | src/app/mint/page.tsx:70-72 | file at the index removed |
| MintPage.MintPageState.HandleInputChange | src/app/mint/page.tsx:65-68 | one field set |
| MintPage.MintPageState.HandleSubmit | src/app/mint/page.tsx:74-133 | the wallet alert, the fields alert, the `btoa` error alert, or one mint attempt with the page's arguments |
| MintPage.MintPageState.Tokenize | src/app/mint/page.tsx:116-132 | the mint request with the given id, URI and commitment and an undefined owner is issued exactly when the tokenization guard passes; an accepted hash is kept with no alert, otherwise the not-initiated error is alerted and the hash is unchanged |
| MintPage.MintPageState.OnReceipt | src/app/mint/page.tsx:136-156 | on success either navigate to the dashboard or reset the form; otherwise nothing happens |
| MintPage.WideCharacterStopsSubmission | src/app/mint/page.tsx:100 | a character above U+00FF in the metadata text (`MetadataText`, the `JSON.stringify` of the page's metadata) makes `btoa` fail |
| MintPage.FirstPageSubmitAlerts | src/app/mint/page.tsx:116-132 | a first submission that passes the page's and the tokenization hook's checks issues one mint request and still shows only the "failed to initiate" alert |
| AuthGuard.Decide | src/components/AuthGuard.tsx:18-45 | loader while reconnecting, redirect to sign-in when disconnected, children iff connected and settled |
| AuthGuard.ReconnectingTakesPrecedence | src/components/AuthGuard.tsx:30-34 | while reconnecting the connection flag does not matter |
| AuthGuard.ChildrenOnlyWhenConnected | src/components/AuthGuard.tsx:37-45 | children imply connected; anything but the loader implies settled |
| Marketplace.MapWhere | src/app/marketplace/page.tsx:94-98 | same length; entries holding the id are updated, the others kept |
| Marketplace.CartAdd | src/app/marketplace/page.tsx:90-102 | an existing entry's quantity goes up by one, else a new entry with quantity one; it is then in the cart |
| Marketplace.CartRemove | src/app/marketplace/page.tsx:104-106 | the id is gone; the result is a subsequence of the cart, so the kept entries stay in their order, and it holds every entry with another id exactly as often as the cart does |
| Marketplace.CartUpdate | src/app/marketplace/page.tsx:108-118 | below one it is the removal, which keeps the other entries in order; otherwise it sets the quantity of the matching entries and keeps every entry in place |
| Marketplace.FilterKeepsUnique | src/app/marketplace/page.tsx:105 | filtering keeps cart ids unique |
| Marketplace.CartUpdateKeepsUnique | src/app/marketplace/page.tsx:104-118 | removing and setting a quantity keep each property in the cart at most once |
| Marketplace.CartUpdatersKeepUnique | src/app/marketplace/page.tsx:90-118 | add, remove and update keep each property in the cart at most once |
| Marketplace.WishlistToggle | src/app/marketplace/page.tsx:120-126 | the id's membership flips and no other id's changes |
| Marketplace.ToggleTwice | src/app/marketplace/page.tsx:120-126 | toggling twice restores the members |
| Marketplace.ToggleTwiceAbsent | src/app/marketplace/page.tsx:120-126 | for an absent id toggling twice restores the list exactly |
| Marketplace.FilterAllKept | src/app/marketplace/page.tsx:123 | filtering out an absent id changes nothing |
| Marketplace.ToggleKeepsDistinct | src/app/marketplace/page.tsx:120-126 | a list without duplicates keeps none |
| Marketplace.FilterKeepsDistinct | src/app/marketplace/page.tsx:123 | filtering keeps a list without duplicates |
| Marketplace.FindRange | src/app/marketplace/page.tsx:157-159 | the found range has the label; none iff no range has it |
| Marketplace.StepIsFilter | src/app/marketplace/page.tsx:132-167 | a conditional filter step is a filter by its gate |
| Marketplace.FourSteps | src/app/marketplace/page.tsx:129-167 | four steps in a row are one filter by the conjunction |
| Marketplace.ActiveRange | src/app/marketplace/page.tsx:156-160 | a range applies iff the label is not "Any Price" and is found |
| Marketplace.ApplyFiltersAccepts | src/app/marketplace/page.tsx:129-167 | the filter chain (`ApplyFilters`, the page's search, city, type and price steps) keeps exactly the properties every active filter accepts, in order |
| Marketplace.GatesAccept | src/app/marketplace/page.tsx:129-167 | the four gates together are the acceptance condition |
| Marketplace.Insert | src/app/marketplace/page.tsx:169-187 | one element longer, same multiset plus the element |
| Marketplace.InsertSorted | src/app/marketplace/page.tsx:169-187 | inserting into a sorted list keeps it sorted |
| Marketplace.SortBy | src/app/marketplace/page.tsx:169-187 | a sorted permutation of the input |
| Marketplace.Order | src/app/marketplace/page.tsx:169-187 | a permutation, sorted for the four choices and unchanged for any other value |
| Marketplace.FilteredProperties | src/app/marketplace/page.tsx:129-190 | a permutation of the accepted properties, ordered by the sort `SortOrderOf` maps the `sortBy` value to ("price-low", "price-high", "newest", "featured", anything else unsorted) |
| Marketplace.FilteredMembers | src/app/marketplace/page.tsx:129-190 | a property is shown iff it is listed and accepted |
| Marketplace.PriceLowAscending | src/app/marketplace/page.tsx:170-171 | "price-low" gives non-decreasing prices |
| Marketplace.PriceHighDescending | src/app/marketplace/page.tsx:173-174 | "price-high" gives non-increasing prices |
| Marketplace.NewestFirst | src/app/marketplace/page.tsx:176-180 | "newest" gives non-increasing creation times |
| Marketplace.FeaturedFirst | src/app/marketplace/page.tsx:182-185 | "featured" puts all featured properties first |
| Marketplace.TotalValueInsert | src/app/marketplace/page.tsx:193-196 | inserting adds the element's price to the total |
| Marketplace.TotalValueSorted | src/app/marketplace/page.tsx:193-196 | the sort does not change the total value |
| Marketplace.TotalValueSortBy | src/app/marketplace/page.tsx:193-196 | sorting keeps the sum of prices, with `TotalValue` the definition of `totalValue` |
| Marketplace.CartTotalAdd | src/app/marketplace/page.tsx:206-209 | adding raises the total by the price, or by the prices of the matching entries |
| Marketplace.CartTotalAppend | src/app/marketplace/page.tsx:206-209 | an appended entry adds price times quantity, with `CartTotal` the definition of `cartTotal` |
| Marketplace.CartTotalIncrement | src/app/marketplace/page.tsx:206-209 | incrementing the matching entries adds their prices |
| Marketplace.CartTotalRemove | src/app/marketplace/page.tsx:206-209 | removing lowers the total by the entries' share |
| Marketplace.MarketplaceState.constructor | src/app/marketplace/page.tsx:78-86 | the default selections, empty cart and wishlist |
| Marketplace.MarketplaceState.AddToCart | src/app/marketplace/page.tsx:90-102 | the cart becomes the added cart; the rest stays; unique ids preserved |
| Marketplace.MarketplaceState.RemoveFromCart | src/app/marketplace/page.tsx:104-106 | the cart becomes `CartRemove`'s result, so the other entries stay in order; the other fields are unchanged and ids stay unique |
| Marketplace.MarketplaceState.UpdateQuantity | src/app/marketplace/page.tsx:108-118 | the cart becomes `CartUpdate`'s result: the quantity is set in place, or below one the entry is removed and the rest stay in order; the other fields are unchanged and ids stay unique |
| Marketplace.MarketplaceState.ToggleWishlist | src/app/marketplace/page.tsx:120-126 | the wishlist is toggled; the rest stays |
| Marketplace.MarketplaceState.ClearFilters | src/app/marketplace/page.tsx:211-216 | the query and the three selections are reset; sort, cart and wishlist stay |
| Marketplace.ClearedFiltersShowAll | src/app/marketplace/page.tsx:211-216 | with cleared filters every listed property is shown |
| FilterSidebar.Compact | src/components/marketplace/FilterSidebar.tsx:45-50 | dropping the falsy entries never lengthens the list |
| FilterSidebar.Kept | src/components/marketplace/FilterSidebar.tsx:45-50 | one entry contributes at most one label |
| FilterSidebar.ActiveFiltersInOrder | src/components/marketplace/FilterSidebar.tsx:45-50 | the labels of the active filters, in order, at most four |
| FilterSidebar.HasActiveFiltersIff | src/components/marketplace/FilterSidebar.tsx:45-52 | some label shows iff some filter is not at its "all" value |
| FilterSidebar.SidebarState.constructor | src/components/marketplace/FilterSidebar.tsx:45-50 | the list is computed from the first props |
| FilterSidebar.SidebarState.HasActiveFilters | src/components/marketplace/FilterSidebar.tsx:52 | true iff the list is non-empty |
| FilterSidebar.SidebarState.Rerender | src/components/marketplace/FilterSidebar.tsx:45-50 | the props change and the list does not |
| FilterSidebar.StaleAfterRerender | src/components/marketplace/FilterSidebar.tsx:45-50 | selecting London after mount shows no label although one is active |
| MarketplaceHeader.Suggestions | src/components/marketplace/MarketplaceHeader.tsx:39-48 | empty for an empty query; otherwise exactly the matching samples |
| MarketplaceHeader.SuggestionsAreSubsequence | src/components/marketplace/MarketplaceHeader.tsx:39-48 | the suggestions keep the order of the samples |
| MarketplaceHeader.SampleSuggestsItself | src/components/marketplace/MarketplaceHeader.tsx:29-48 | a non-empty sample used as the query suggests itself |
| MarketplaceHeader.HeaderState.constructor | src/components/marketplace/MarketplaceHeader.tsx:24-37 | the query is the one passed in, not focused, no suggestions, and the samples are the fixed list; the mount effect is not run, so the suggestions stay empty until `OnQueryChanged` |
| MarketplaceHeader.HeaderState.DropdownVisible | src/components/marketplace/MarketplaceHeader.tsx:170 | shown iff the box is focused or the query is non-empty, and there are suggestions |
| MarketplaceHeader.HeaderState.OnQueryChanged | src/components/marketplace/MarketplaceHeader.tsx:39-48 | the suggestions are those of the query |
| MarketplaceHeader.HeaderState.Type | src/components/marketplace/MarketplaceHeader.tsx:150 | the query is set and its suggestions follow |
| MarketplaceHeader.HeaderState.SetFocused | src/components/marketplace/MarketplaceHeader.tsx:151-152 | focus set; the rest stays |
| MarketplaceHeader.HeaderState.HandleSuggestionClick | src/components/marketplace/MarketplaceHeader.tsx:50-56 | query set and focused; the suggestions are recomputed when the query changed |
| MarketplaceHeader.HeaderState.HandleClearSearch | src/components/marketplace/MarketplaceHeader.tsx:58-64 | query cleared and the dropdown hidden |
| MarketplaceHeader.ClickKeepsDropdownOpen | src/components/marketplace/MarketplaceHeader.tsx:50-56 | clicking a new suggestion leaves the dropdown open, showing it |
| PropertyGrid.ImageFor | src/components/marketplace/PropertyGrid.tsx:59 | no image without images; any image is from the list; the id's remainder picks it |
| PropertyGrid.Render | src/components/marketplace/PropertyGrid.tsx:28-68 | empty state iff nothing is shown; one card per property in order, with both flags and the image |
| PropertyGrid.ToggleFlipsHeart | src/components/marketplace/PropertyGrid.tsx:50 | toggling an id flips exactly that property's heart |
| PropertyGrid.AddMarksCart | src/components/marketplace/PropertyGrid.tsx:51-53 | an added property's card is marked in the cart |
| MarketInsights.Countries | src/components/marketplace/MarketInsights.tsx:17 | the set of countries of the shown properties |
| MarketInsights.CountriesAtMostProperties | src/components/marketplace/MarketInsights.tsx:17 | never more countries than properties |
| MarketInsights.NoCountriesIffEmpty | src/components/marketplace/MarketInsights.tsx:17 | zero countries iff nothing is shown |
| MarketInsights.CountriesIgnoreOrder | src/components/marketplace/MarketInsights.tsx:17 | permuted lists have the same countries |
| MarketInsights.CountriesAppend | src/components/marketplace/MarketInsights.tsx:17 | one more property adds exactly its country to the set |
| MarketInsights.AppendCountry | src/components/marketplace/MarketInsights.tsx:17 | the count grows by one exactly for a new country, and stays otherwise |
| MarketInsights.CountriesOfMembers | src/components/marketplace/MarketInsights.tsx:17 | a list holding exactly the members that pass a filter has exactly their countries |
| MarketInsights.ShownCountries | src/components/marketplace/MarketInsights.tsx:17 | the counted countries are those of the accepted listed properties |
| WebVitals.GetThresholds | src/lib/webVitals.ts:36-51 | each of the six table entries (FCP, LCP, FID, CLS, TTFB, INP) with its two bounds; zero for unknown names |
| WebVitals.Tally | src/lib/webVitals.ts:72-129 | one metric block adds its points, its count and its issue |
| WebVitals.CalculatePerformanceScore | src/lib/webVitals.ts:56-145 | the report equals `Score(m)`, the reference definition: the rounded average, its grade and the issues or the all-good message |
| WebVitals.TotalBounds | src/lib/webVitals.ts:72-129 | each counted metric earns 5 to 25 points |
| WebVitals.AverageBounds | src/lib/webVitals.ts:131 | the average of up to four such scores lies in 5 to 25 |
| WebVitals.NormalizedBounds | src/lib/webVitals.ts:131-144 | with a metric present, the average and the score lie in 5 to 25 |
| WebVitals.AlwaysGradeF | src/lib/webVitals.ts:131-138 | every report is graded F |
| WebVitals.NoMetrics | src/lib/webVitals.ts:131-144 | with no metrics: score 0, grade F, all good |
| WebVitals.TtfbIgnored | src/lib/webVitals.ts:56-145 | the TTFB reading never changes the report |
| WebVitals.OneIssuePerBadMetric | src/lib/webVitals.ts:72-129 | one issue per counted metric outside its good band |
| WebVitals.Good | src/lib/webVitals.ts:72-129 | the good metrics are among the counted ones |
| WebVitals.AllGoodIff | src/lib/webVitals.ts:140-144 | the all-good message iff every counted metric is good |
| WebVitals.LcpIssueFirst | src/lib/webVitals.ts:72-84 | a poor LCP is the first issue |
| WebVitals.GradeMonotone | src/lib/webVitals.ts:133-138 | a higher average never earns a lower grade |
| WebVitals.RoundNearest | src/lib/webVitals.ts:142 | the rounding is to the nearest integer |
| Performance.Keys | src/lib/performance.ts:81-82 | the keys, in entry order |
| Performance.Get | src/lib/performance.ts:86 | `undefined` for an absent key; any other value is stored under the key |
| Performance.ShallowEqual | src/lib/performance.ts:77-92 | true iff the key counts agree and every key of the first has a strictly equal value in the second |
| Performance.StrictEqualsReflexive | src/lib/performance.ts:86 | `===` is reflexive except on `NaN` |
| Performance.SelfEqualUnlessNaN | src/lib/performance.ts:77-92 | an object equals itself iff none of its values is `NaN` |
| Performance.DifferentKeyCounts | src/lib/performance.ts:81-83 | different key counts are never equal |
| Performance.MissingKeyReadsUndefined | src/lib/performance.ts:85-89 | `{a: undefined}` equals `{b: 1}` but not the other way round |
| Performance.SelfEqualWithoutNaN | src/lib/performance.ts:77-92 | an object without `NaN` values equals itself |
| HowItWorks.StepCarousel.constructor | src/components/home/HowItWorksSection.tsx:113-114 | step 0, unlocked |
| HowItWorks.StepCarousel.HandleStepChange | src/components/home/HowItWorksSection.tsx:117-123 | ignored while animating or for the current step; otherwise the step moves and the lock closes |
| HowItWorks.StepCarousel.NextStep | src/components/home/HowItWorksSection.tsx:125-129 | forward by one unless at the last step or animating |
| HowItWorks.StepCarousel.PrevStep | src/components/home/HowItWorksSection.tsx:131-135 | back by one unless at the first step or animating |
| HowItWorks.StepCarousel.AnimationEnd | src/components/home/HowItWorksSection.tsx:117-123 | the lock opens; the step stays |
| HowItWorks.StepCarousel.AutoAdvanceTick | src/components/home/HowItWorksSection.tsx:138-143 | the tick moves only if the interval's snapshot saw the lock open |
| HowItWorks.StepCarousel.AutoAdvanceTickCurrent | src/components/home/HowItWorksSection.tsx:125-143 | the intended tick: forward unless at the last step or animating |
| HowItWorks.AutoAdvanceStallsAtOne | src/components/home/HowItWorksSection.tsx:117-143 | as written, three ticks reach only step 1 |
| HowItWorks.IntendedAutoAdvanceStopsAtLast | src/components/home/HowItWorksSection.tsx:125-143 | intended ticks go 1, 2 and then stay at 2 |
| Comparison.Next | src/components/home/ComparisonSection.tsx:55-60 | the next stage in range: one more, wrapping from the last to the first |
| Comparison.ThreeTicksRestore | src/components/home/ComparisonSection.tsx:55-60 | three ticks return to the same stage |
| Comparison.TicksVisitAll | src/components/home/ComparisonSection.tsx:55-60 | from any stage, every stage is reached within three ticks |
| Comparison.Rotator.constructor | src/components/home/ComparisonSection.tsx:53 | starts at the final stage |
| Comparison.Rotator.Tick | src/components/home/ComparisonSection.tsx:55-60 | moves to the next stage |
| Comparison.Rotator.SelectDot | src/components/home/ComparisonSection.tsx:176-180 | the chosen stage becomes active |
| Comparison.Rotator.ShowsDashboardLink | src/components/home/ComparisonSection.tsx:137-145 | the link shows iff the final stage is active |
| Comparison.LinkReturnsAfterThreeTicks | src/components/home/ComparisonSection.tsx:53-145 | the link shown at mount shows again after three ticks |
| AboutFaq.Toggle | src/app/about/page.tsx:913 | clicking the open item closes it; any other click opens that item |
| AboutFaq.ToggleTwice | src/app/about/page.tsx:913 | two clicks restore a closed or same-item state, and close another item |
| AboutFaq.Accordion.constructor | src/app/about/page.tsx:69 | nothing open |
| AboutFaq.Accordion.IsOpen | src/app/about/page.tsx:913 | open iff it is the open item |
| AboutFaq.Accordion.Click | src/app/about/page.tsx:913 | the state becomes the toggled one |
| AboutFaq.AtMostOneOpen | src/app/about/page.tsx:69 | at most one item is open |
| AboutFaq.ClickSwitchesItem | src/app/about/page.tsx:913 | opening one item then another leaves only the second open |
| AboutFaq.Badge | src/app/about/page.tsx:923 | at least two characters |
| AboutFaq.BadgesOfListedItems | src/app/about/page.tsx:35-66 | for the six items the badge is "0" and the item's digit |
| AboutFaq.BadgeValue | src/app/about/page.tsx:923 | the badge reads as the item's number |
| AboutFaq.LeadingZero | src/app/about/page.tsx:923 | a leading zero does not change the value |
| AboutFaq.BadgesDistinct | src/app/about/page.tsx:923 | distinct items get distinct badges |

## Findings

| source | as written | input that shows it | evidently intended | confidence | as-written member | corrected member |
|---|---|---|---|---|---|---|
| src/components/home/HowItWorksSection.tsx:117-143 | the interval restarts only when the step changes, so its callback sees the lock closed by that very change and never advances again | mount, then three 8 s ticks with each 500 ms animation finished in between: the step goes 0, 1, 1, 1 | each tick advances while the lock is open, up to the last step | not executed | HowItWorks.AutoAdvanceStallsAtOne | HowItWorks.IntendedAutoAdvanceStopsAtLast |

## Left out

- JSON serialisation, keccak-256, `Number()`, `Date.now()`, the ISO clock and the text of `btoa`'s exception are parameters of the submit handlers, not definitions.
- Floating point: readings are exact reals, and the source's averaging, rounding and comparisons are exact. `toLocaleString`, `toFixed` and the marketplace's `averagePrice` are not modelled.
- `toLowerCase` is modelled on ASCII letters only.
- Strings are sequences of Unicode scalar values, so a lone surrogate cannot occur. The model therefore leaves out the `URIError` that `encodeURIComponent` throws on a lone surrogate. It also leaves out the U+FFFD replacement `TextEncoder` makes for one (src/hooks/useTokenization.ts:75-79, src/hooks/useStrataDeed.ts:39-43). In this app the input to `encodeURIComponent` is `JSON.stringify` output, which is well-formed since ECMAScript 2019, and the commitments are keccak hex, so neither case arises.
- Dates are stored as integer timestamps, so "newest" compares numbers instead of parsing date strings.
- `getWebVitalThresholds` looking up `Object.prototype` keys such as `toString` is not modelled; every unknown name gives zero bounds.
- `reportWebVitals` and `observePerformance` only log or register observers, so they are not modelled.
- The ABI entries the app never calls are not modelled.
- The raw React setters other than the handlers are not modelled. The tokenisation checkbox is a form field, and unknown field names are not modelled.
- Timers are events: `AnimationEnd`, `AutoAdvanceTick`, `Tick` and blur's 200 ms delay (folded into `SetFocused`) fire without a clock.
- Async interleaving is left out: each handler runs to completion before the next event, and a write settles only through `OnWriteSettled`.
- The mint page's receipt hash display and the dashboard pages are not modelled.
- Marketplace.Order: ECMAScript 2019 requires `Array.prototype.sort` to be stable, and `SortBy` is a stable insertion sort, but stability (equal keys keep their input order) is not proved; the contract gives a sorted permutation.
- Performance.JsObject: an object is a list of its own entries. The model does not exclude repeated keys. It does not model reads that reach inherited properties through the prototype chain (`obj2["toString"]` is a function in JavaScript, where `Get` gives `undefined`). It does not model `Object.keys(null)` throwing.
- PropertyGrid.ImageFor: that the image choice repeats with period `n` over ids is not proved.
- HowItWorks.StepCarousel.HandleStepChange: requires an index in range, since the dots and buttons pass only list indices.
- Comparison.Rotator.SelectDot: requires an index in range, since only the three rendered dots call it.
- ControlsBar, FeaturedShowcase, PropertyCard and the other presentational components are left out: they only render props.
- Network access, wallets and contract execution happen outside the app and are left out.
