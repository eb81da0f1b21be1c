/** The Blockstream transaction service: network selection, classification
    of upstream responses, normalization of a transaction document and the
    analysis envelope that combines them.

    The HTTP GET itself is not modelled: each fetch is handed the response the
    upstream gave, as a status code and an already decoded body. Upstream JSON
    objects become datatypes whose optional keys are `Option` fields. */
module TransactionService {
  import opened Wrappers
  import opened Amounts

  // ---------------------------------------------------------------- network

  const BlockstreamMainnet: string := "https://blockstream.info/api"
  const BlockstreamTestnet: string := "https://blockstream.info/testnet/api"

  /** `_base_url`: "testnet" selects the testnet root; every other network
      value, recognized or not, falls back to the mainnet root. */
  function BaseUrl(network: string): (url: string)
    ensures url == BlockstreamTestnet <==> network == "testnet"
    ensures url == BlockstreamMainnet <==> network != "testnet"
  {
    if network == "testnet" then BlockstreamTestnet else BlockstreamMainnet
  }

  // ------------------------------------------------------- upstream documents

  /** `vin[i].prevout`: the output an input spends. */
  datatype Prevout = Prevout(scriptpubkeyAddress: Option<string>, value: Option<int>)

  /** An element of `vin`; `prevout` is absent (or null) for some inputs. */
  datatype Vin = Vin(prevout: Option<Prevout>)

  /** An element of `vout`. */
  datatype Vout = Vout(scriptpubkeyAddress: Option<string>, value: Option<int>)

  /** The document of `/tx/{txid}/status`; the same shape may also be
      embedded as the `status` key of a transaction document. */
  datatype RawStatus = RawStatus(confirmed: Option<bool>, blockHeight: Option<int>, blockHash: Option<string>)

  /** The document of `/tx/{txid}`. An absent `vin` or `vout` list is the
      empty sequence, which is what the normalizer reads it as. */
  datatype RawTransaction = RawTransaction(
    txid: Option<string>,
    fee: Option<int>,
    vsize: Option<int>,
    vin: seq<Vin>,
    vout: seq<Vout>,
    status: Option<RawStatus>)

  // -------------------------------------------------------------- fetching

  /** What an HTTP GET answered: the status code and the decoded JSON body. */
  datatype Response<T> = Response(statusCode: int, body: T)

  /** Which of the two upstream documents was asked for. */
  datatype Resource = Transaction | TransactionStatus

  /** The two ways a fetch fails: `ValueError` on 404 and `RuntimeError`
      carrying the status code on any other non-200 answer. */
  datatype FetchError = NotFound(resource: Resource) | UpstreamError(code: int)

  /** The status-code checks shared by `fetch_tx_raw` and `fetch_tx_status`. */
  function Classify<T>(resource: Resource, resp: Response<T>): (r: Result<T, FetchError>)
    ensures r.Success? <==> resp.statusCode == 200
    ensures r.Success? ==> r.value == resp.body
    ensures r == Failure(NotFound(resource)) <==> resp.statusCode == 404
    ensures r.Failure? && r.error.UpstreamError? <==> resp.statusCode != 200 && resp.statusCode != 404
    ensures r.Failure? && r.error.UpstreamError? ==> r.error.code == resp.statusCode
  {
    if resp.statusCode == 404 then Failure(NotFound(resource))
    else if resp.statusCode != 200 then Failure(UpstreamError(resp.statusCode))
    else Success(resp.body)
  }

  /** `fetch_tx_raw`, given the answer to GET `{root}/tx/{txid}`. */
  function FetchTxRaw(resp: Response<RawTransaction>): (r: Result<RawTransaction, FetchError>)
    ensures resp.statusCode == 200 ==> r == Success(resp.body)
    ensures resp.statusCode == 404 ==> r == Failure(NotFound(Transaction))
    ensures resp.statusCode != 200 && resp.statusCode != 404 ==> r == Failure(UpstreamError(resp.statusCode))
  {
    Classify(Transaction, resp)
  }

  /** `fetch_tx_status`, given the answer to GET `{root}/tx/{txid}/status`. */
  function FetchTxStatus(resp: Response<RawStatus>): (r: Result<RawStatus, FetchError>)
    ensures resp.statusCode == 200 ==> r == Success(resp.body)
    ensures resp.statusCode == 404 ==> r == Failure(NotFound(TransactionStatus))
    ensures resp.statusCode != 200 && resp.statusCode != 404 ==> r == Failure(UpstreamError(resp.statusCode))
  {
    Classify(TransactionStatus, resp)
  }

  // ------------------------------------------------------------ normalizing

  /** An entry of `inputs` or `outputs` in the normalized view. */
  datatype Entry = Entry(address: Option<string>, amountBtc: real)

  /** The normalized view of a transaction. `status` is the label
      "confirmed" or "unconfirmed". */
  datatype NormalizedTransaction = NormalizedTransaction(
    txid: Option<string>,
    status: string,
    confirmations: Option<int>,
    blockHeight: Option<int>,
    feeBtc: real,
    virtualSize: Option<int>,
    inputs: seq<Entry>,
    outputs: seq<Entry>)

  /** The normalized entry of one input: address and value of its prevout,
      a missing prevout counting as an empty one. */
  function InputEntry(v: Vin): (e: Entry)
    ensures v.prevout.None? ==> e == Entry(None, 0.0)
    ensures v.prevout.Some? ==> e.address == v.prevout.value.scriptpubkeyAddress
    ensures v.prevout.Some? && v.prevout.value.value.None? ==> e.amountBtc == 0.0
    ensures v.prevout.Some? && v.prevout.value.value.Some? ==>
              e.amountBtc * SatsPerBtc as real == v.prevout.value.value.value as real
  {
    var prevout := v.prevout.GetOr(Prevout(None, None));
    Entry(prevout.scriptpubkeyAddress, SatsToBtc(prevout.value.GetOr(0)))
  }

  /** The normalized entry of one output. */
  function OutputEntry(v: Vout): (e: Entry)
    ensures e.address == v.scriptpubkeyAddress
    ensures e.amountBtc * SatsPerBtc as real == v.value.GetOr(0) as real
  {
    Entry(v.scriptpubkeyAddress, SatsToBtc(v.value.GetOr(0)))
  }

  /** The `inputs` list: one entry per element of `vin`, in order. */
  function InputEntries(vin: seq<Vin>): (r: seq<Entry>)
    ensures |r| == |vin|
    ensures forall i :: 0 <= i < |vin| ==> r[i] == InputEntry(vin[i])
  {
    if vin == [] then [] else [InputEntry(vin[0])] + InputEntries(vin[1..])
  }

  /** The `outputs` list: one entry per element of `vout`, in order. */
  function OutputEntries(vout: seq<Vout>): (r: seq<Entry>)
    ensures |r| == |vout|
    ensures forall i :: 0 <= i < |vout| ==> r[i] == OutputEntry(vout[i])
  {
    if vout == [] then [] else [OutputEntry(vout[0])] + OutputEntries(vout[1..])
  }

  /** `bool(status.get("confirmed"))`: only a present `true` confirms. */
  function IsConfirmed(status: RawStatus): (confirmed: bool)
    ensures status.confirmed == Some(true) ==> confirmed
    ensures status.confirmed == Some(false) ==> !confirmed
    ensures status.confirmed == None ==> !confirmed
  {
    status.confirmed == Some(true)
  }

  /** `raw_tx.get("status", {}).get("block_height")`. */
  function EmbeddedBlockHeight(rawTx: RawTransaction): (h: Option<int>)
    ensures rawTx.status.None? ==> h == None
    ensures rawTx.status.Some? ==> h == rawTx.status.value.blockHeight
  {
    match rawTx.status
    case Some(s) => s.blockHeight
    case None => None
  }

  /** `normalize_transaction`, as a specification. */
  function Normalized(rawTx: RawTransaction, status: RawStatus): (n: NormalizedTransaction)
    ensures n.txid == rawTx.txid && n.virtualSize == rawTx.vsize
    ensures n.status == "confirmed" || n.status == "unconfirmed"
    ensures n.status == "confirmed" <==> IsConfirmed(status)
    ensures IsConfirmed(status) ==> n.blockHeight == status.blockHeight
    ensures !IsConfirmed(status) ==> n.blockHeight == None
    ensures n.confirmations == None || n.confirmations == Some(1)
    ensures n.confirmations == Some(1) <==>
              IsConfirmed(status) && status.blockHeight.Some? && EmbeddedBlockHeight(rawTx).Some?
    ensures n.feeBtc * SatsPerBtc as real == rawTx.fee.GetOr(0) as real
    ensures |n.inputs| == |rawTx.vin|
    ensures forall i :: 0 <= i < |rawTx.vin| ==> n.inputs[i] == InputEntry(rawTx.vin[i])
    ensures |n.outputs| == |rawTx.vout|
    ensures forall i :: 0 <= i < |rawTx.vout| ==> n.outputs[i] == OutputEntry(rawTx.vout[i])
  {
    var confirmed := IsConfirmed(status);
    var blockHeight := if confirmed then status.blockHeight else None;
    var confirmations :=
      if confirmed && blockHeight.Some? && EmbeddedBlockHeight(rawTx).Some? then Some(1) else None;
    NormalizedTransaction(
      rawTx.txid,
      if confirmed then "confirmed" else "unconfirmed",
      confirmations,
      blockHeight,
      SatsToBtc(rawTx.fee.GetOr(0)),
      rawTx.vsize,
      InputEntries(rawTx.vin),
      OutputEntries(rawTx.vout))
  }

  /** The loop of `normalize_transaction` that builds `inputs`. */
  method NormalizeInputs(vin: seq<Vin>) returns (inputs: seq<Entry>)
    ensures inputs == InputEntries(vin)
  {
    inputs := [];
    for i := 0 to |vin|
      invariant |inputs| == i
      invariant forall k :: 0 <= k < i ==> inputs[k] == InputEntry(vin[k])
    {
      inputs := inputs + [InputEntry(vin[i])];
    }
  }

  /** The loop of `normalize_transaction` that builds `outputs`. */
  method NormalizeOutputs(vout: seq<Vout>) returns (outputs: seq<Entry>)
    ensures outputs == OutputEntries(vout)
  {
    outputs := [];
    for i := 0 to |vout|
      invariant |outputs| == i
      invariant forall k :: 0 <= k < i ==> outputs[k] == OutputEntry(vout[k])
    {
      outputs := outputs + [OutputEntry(vout[i])];
    }
  }

  /** `normalize_transaction`: the two loops, then the status fields, which
      mirror those of `Normalized` field by field. */
  method NormalizeTransaction(rawTx: RawTransaction, status: RawStatus) returns (n: NormalizedTransaction)
    ensures n == Normalized(rawTx, status)
  {
    var inputs := NormalizeInputs(rawTx.vin);
    var outputs := NormalizeOutputs(rawTx.vout);
    var confirmed := IsConfirmed(status);
    var blockHeight := if confirmed then status.blockHeight else None;
    var confirmations := None;
    if confirmed && blockHeight.Some? && EmbeddedBlockHeight(rawTx).Some? {
      confirmations := Some(1);
    }
    n := NormalizedTransaction(
      rawTx.txid,
      if confirmed then "confirmed" else "unconfirmed",
      confirmations,
      blockHeight,
      SatsToBtc(rawTx.fee.GetOr(0)),
      rawTx.vsize,
      inputs,
      outputs);
  }

  /** A missing prevout and an empty prevout normalize alike (`or {}`). */
  lemma EmptyPrevoutIsMissingPrevout()
    ensures InputEntry(Vin(Some(Prevout(None, None)))) == InputEntry(Vin(None))
  {
  }

  /** Normalization is order-preserving: normalizing a concatenation of
      inputs concatenates the normalized inputs. */
  lemma InputEntriesAppend(a: seq<Vin>, b: seq<Vin>)
    ensures InputEntries(a + b) == InputEntries(a) + InputEntries(b)
  {
  }

  /** The same for outputs. */
  lemma OutputEntriesAppend(a: seq<Vout>, b: seq<Vout>)
    ensures OutputEntries(a + b) == OutputEntries(a) + OutputEntries(b)
  {
  }

  // ------------------------------------------------------------- analysing

  /** The document `analyze_transaction` returns. */
  datatype Analysis = Analysis(
    network: string,
    source: string,
    txid: string,
    raw: RawTransaction,
    status: RawStatus,
    normalized: NormalizedTransaction)

  /** `analyze_transaction`: fetch the transaction, then its status, then
      normalize; the first failure is the result. `network` defaults to
      "mainnet"; `txResp` and `statusResp` are the upstream's answers to the
      two GETs (passed by name when `network` is left out). `requested`
      lists the GETs issued, in order: the status is asked for only after
      the transaction was fetched successfully. */
  method AnalyzeTransaction(txid: string, network: string := "mainnet",
                            txResp: Response<RawTransaction>, statusResp: Response<RawStatus>)
    returns (r: Result<Analysis, FetchError>, ghost requested: seq<Resource>)
    ensures txResp.statusCode != 200 ==> requested == [Transaction]
    ensures txResp.statusCode == 200 ==> requested == [Transaction, TransactionStatus]
    ensures txResp.statusCode != 200 ==> r == Failure(FetchTxRaw(txResp).error)
    ensures txResp.statusCode == 404 ==> r == Failure(NotFound(Transaction))
    ensures txResp.statusCode == 200 && statusResp.statusCode != 200 ==>
              r == Failure(FetchTxStatus(statusResp).error)
    ensures r.Success? <==> txResp.statusCode == 200 && statusResp.statusCode == 200
    ensures r.Success? ==>
              r.value == Analysis(network, "blockstream", txid, txResp.body, statusResp.body,
                                  Normalized(txResp.body, statusResp.body))
  {
    requested := [Transaction];
    var raw := FetchTxRaw(txResp);
    if raw.Failure? {
      return Failure(raw.error), requested;
    }
    requested := requested + [TransactionStatus];
    var status := FetchTxStatus(statusResp);
    if status.Failure? {
      return Failure(status.error), requested;
    }
    var normalized := NormalizeTransaction(raw.value, status.value);
    r := Success(Analysis(network, "blockstream", txid, raw.value, status.value, normalized));
  }
}
