# Bitcoin transaction analyzer — verified model of the transaction service

This project models the core of a small Bitcoin transaction analyzer: the
service that fetches a transaction and its confirmation status from the
Blockstream HTTP API and reshapes them into a normalized document. Four pieces
are modelled in Dafny and proved:

- **Network selection** (`_base_url`): "testnet" selects the testnet API root,
  every other value falls back to the mainnet root.
- **Satoshi-to-BTC conversion** (`_sats_to_btc`): `round(sats / 10^8, 8)` on
  exact reals, with Python's round-half-to-even; proved to equal `sats / 10^8`
  exactly, to be injective, and to round-trip back to the satoshis.
- **Normalizer** (`normalize_transaction`): the two `for`/`append` loops are
  methods proved equal to recursive specification functions; the whole
  normalizer is a method proved equal to the function `Normalized`, whose
  contract states order- and length-preservation of `inputs`/`outputs`, the
  defaults for missing fields, the status label, the conditional
  `block_height`, and the placeholder `confirmations` (always none or 1).
- **Fetch classification and orchestration** (`fetch_tx_raw`,
  `fetch_tx_status`, `analyze_transaction`): an HTTP answer is a given
  `Response(statusCode, body)`; 404 is `NotFound`, any other non-200 is
  `UpstreamError(code)`, 200 is the body unchanged. The orchestrator returns
  the first failure (the status answer plays no part once the transaction
  fetch failed) or the envelope `{network, source: "blockstream", txid, raw,
  status, normalized}`.

Files: `wrappers.dfy` (Option, Result), `amounts.dfy` (module `Amounts`),
`transaction_service.dfy` (module `TransactionService`), `scenarios.dfy`
(module `Scenarios`: the documented confirmed / 404 / 503 scenarios).

Upstream JSON documents are datatypes whose optional keys are `Option` fields.
An absent `vin` or `vout` list is the empty sequence, which is what
`.get("vin", [])` makes of it. `prevout` being absent, null or `{}` all
normalize to address none and amount 0 (`EmptyPrevoutIsMissingPrevout`).

The orchestrator also returns, as a ghost value, the list of GETs it issued,
so that its contract can say that the status is never requested once the
transaction fetch has failed.

An output without `value` gets amount 0, as the code reads
`vout.get("value", 0)`.

## Model

| member | source | states |
|---|---|---|
| Amounts.RoundHalfEven | app/services/transaction_service.py:16 | the result is an integer within 1/2 of the argument, and on a tie it is even (Python's `round`) |
| Amounts.Round8 | app/services/transaction_service.py:16 | `round(x, 8)`: the result is a multiple of 10^-8 within half of 10^-8 of `x` |
| Amounts.RoundHalfEvenOfInteger | app/services/transaction_service.py:16 | rounding an integer leaves it unchanged |
| Amounts.SatsToBtc | app/services/transaction_service.py:15-16 | the BTC amount times 10^8 is exactly the satoshi amount (the rounding to 8 places never changes it); non-negative in, non-negative out |
| Amounts.SatsRoundTrip | app/services/transaction_service.py:15-16 | converting satoshis to BTC and back gives the same satoshis |
| Amounts.SatsToBtcInjective | app/services/transaction_service.py:15-16 | two satoshi amounts convert to the same BTC amount exactly when they are equal |
| Amounts.ConversionExamples | testes/test_analyzer.py:92-104 | 200 sats is 0.000002 BTC, 210000 is 0.0021, 190000 is 0.0019, 19900 is 0.000199, 0 is 0 |
| TransactionService.BaseUrl | app/services/transaction_service.py:11-12 | the testnet root exactly when the network is "testnet", the mainnet root for every other value |
| TransactionService.Classify | app/services/transaction_service.py:25-29 | success exactly on 200 and then the body unchanged; NotFound exactly on 404; UpstreamError carrying the code exactly on any other status |
| TransactionService.FetchTxRaw | app/services/transaction_service.py:19-29 | 200 gives the transaction body, 404 gives NotFound(Transaction), any other code gives UpstreamError(code) |
| TransactionService.FetchTxStatus | app/services/transaction_service.py:32-42 | 200 gives the status body, 404 gives NotFound(TransactionStatus), any other code gives UpstreamError(code) |
| TransactionService.InputEntry | app/services/transaction_service.py:64-69 | a missing prevout gives address none and amount 0; otherwise the prevout's address, and its value divided by 10^8, or 0 when the value is absent |
| TransactionService.OutputEntry | app/services/transaction_service.py:75-79 | the output's address (or none) and its value divided by 10^8 (0 when absent) |
| TransactionService.IsConfirmed | app/services/transaction_service.py:83 | `bool(status.get("confirmed"))`: confirmed when `confirmed` is true, unconfirmed when it is false or absent |
| TransactionService.EmbeddedBlockHeight | app/services/transaction_service.py:88 | the block height of the status embedded in the transaction document, none when that status is absent |
| TransactionService.InputEntries | app/services/transaction_service.py:62-70 | one entry per input, same length, entry i normalizes input i |
| TransactionService.OutputEntries | app/services/transaction_service.py:73-80 | one entry per output, same length, entry i normalizes output i |
| TransactionService.Normalized | app/services/transaction_service.py:45-102 | txid and vsize passed through; label "confirmed" exactly when `confirmed` is true, else "unconfirmed"; block height from the status when confirmed, none otherwise; confirmations is none or 1, and 1 exactly when confirmed with a block height in both the status and the embedded status; fee times 10^8 is the fee (or 0); inputs and outputs keep length and order |
| TransactionService.NormalizeInputs | app/services/transaction_service.py:62-70 | the loop's list equals the specification `InputEntries(vin)` |
| TransactionService.NormalizeOutputs | app/services/transaction_service.py:73-80 | the loop's list equals the specification `OutputEntries(vout)` |
| TransactionService.NormalizeTransaction | app/services/transaction_service.py:45-102 | the imperative normalizer produces exactly `Normalized(rawTx, status)` |
| TransactionService.EmptyPrevoutIsMissingPrevout | app/services/transaction_service.py:64 | an empty prevout normalizes like a missing one |
| TransactionService.InputEntriesAppend | app/services/transaction_service.py:62-70 | normalizing concatenated inputs concatenates their normalized entries (order is preserved) |
| TransactionService.OutputEntriesAppend | app/services/transaction_service.py:73-80 | normalizing concatenated outputs concatenates their normalized entries |
| TransactionService.AnalyzeTransaction | app/services/transaction_service.py:105-119 | `network` defaults to "mainnet"; the GETs issued are the transaction and then the status, and only the transaction when that fetch fails; a failed transaction fetch is the result whatever the status answer is (404 gives NotFound(Transaction)); otherwise a failed status fetch is the result; success exactly when both answers are 200, and then the envelope echoes network and txid, has source "blockstream", embeds both bodies unchanged and their normalization |
| Scenarios.ScenarioNormalized | testes/test_analyzer.py:43-108 | the documented confirmed transaction normalizes to the expected document field by field |
| Scenarios.AnalyzeScenarios | testes/test_analyzer.py:76-143 | the confirmed scenario succeeds with the expected envelope and normalized document; all-404 answers give NotFound(Transaction) after a single GET; all-503 answers give UpstreamError(503) |

## Left out

- The HTTP GETs (`requests.get`), the URL strings built from `BaseUrl`, the 20-second timeout and JSON decoding: network I/O, modelled as a given `Response(statusCode, body)` per fetch.
- The error messages of the raised `ValueError`/`RuntimeError`: only their kind, the resource for not-found, and the status code are modelled.
- IEEE double arithmetic in `round(sats / 100_000_000, 8)`: amounts are exact reals; the float representation is not modelled.
- Python dynamic typing beyond typed optional fields: a key present with value null where `.get(key, 0)` returns None (which makes the conversion raise), a truthy non-boolean `confirmed`, `bool` counting as `int` for `isinstance`, and `raw_tx["status"]` being null.
- The body of a non-200 answer is typed like the success body; the model never reads it.
- app/main.py (the HTTP wrapper with its own copy of the fetch and 404/502 mapping) and the command-line entry points: framework and printing plumbing that does not use the normalizer.
