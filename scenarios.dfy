/** The analyzer's three documented scenarios, stated against the model:
    a confirmed transaction with one input and two outputs, a 404 from the
    upstream, and a 503 from the upstream. */
module Scenarios {
  import opened Wrappers
  import opened TransactionService

  const ScenarioTxid: string := "ffffffffffffffffffffffffffffffffffffffffffffffffffffffffffffffff"

  /** The transaction document of the confirmed scenario. */
  function ScenarioTx(): (tx: RawTransaction) {
    RawTransaction(
      Some(ScenarioTxid), Some(200), Some(141),
      [Vin(Some(Prevout(Some("bc1qinputaddr..."), Some(210000))))],
      [Vout(Some("bc1qoutput1..."), Some(190000)), Vout(Some("bc1qchange..."), Some(19900))],
      None)
  }

  /** Its status document. */
  function ScenarioStatus(): (status: RawStatus) {
    RawStatus(Some(true), Some(823001), Some("abc123"))
  }

  /** The normalized document the confirmed scenario expects. */
  function ScenarioExpected(): (n: NormalizedTransaction) {
    NormalizedTransaction(
      Some(ScenarioTxid), "confirmed", None, Some(823001), 0.000002, Some(141),
      [Entry(Some("bc1qinputaddr..."), 0.0021)],
      [Entry(Some("bc1qoutput1..."), 0.0019), Entry(Some("bc1qchange..."), 0.000199)])
  }

  /** The normalized view of the confirmed scenario, field by field. The
      transaction document embeds no status, so `confirmations` stays None. */
  lemma ScenarioNormalized()
    ensures Normalized(ScenarioTx(), ScenarioStatus()) == ScenarioExpected()
  {
  }

  /** The three scenarios run through the orchestrator: both answers 200;
      every answer 404; every answer 503 (the last one leaves the network
      at its default, "mainnet"). After the 404 on the transaction, the
      status is never asked for. */
  method AnalyzeScenarios()
    returns (ok: Result<Analysis, FetchError>,
             missing: Result<Analysis, FetchError>,
             unavailable: Result<Analysis, FetchError>,
             ghost missingRequested: seq<Resource>)
    ensures ok.Success?
    ensures ok.value.network == "mainnet" && ok.value.source == "blockstream"
    ensures ok.value.txid == ScenarioTxid && ok.value.raw.txid == Some(ScenarioTxid)
    ensures ok.value.status.confirmed == Some(true)
    ensures ok.value.normalized == ScenarioExpected()
    ensures missing == Failure(NotFound(Transaction))
    ensures missingRequested == [Transaction]
    ensures unavailable == Failure(UpstreamError(503))
  {
    ghost var okRequested, unavailableRequested;
    ok, okRequested :=
      AnalyzeTransaction(ScenarioTxid, "mainnet",
                         Response(200, ScenarioTx()), Response(200, ScenarioStatus()));
    ScenarioNormalized();
    missing, missingRequested :=
      AnalyzeTransaction("eeeeeeeeeeeeeeeeeeeeeeeeeeeeeeeeeeeeeeeeeeeeeeeeeeeeeeeeeeeeeeee", "mainnet",
                         Response(404, ScenarioTx()), Response(404, ScenarioStatus()));
    unavailable, unavailableRequested :=
      AnalyzeTransaction("dddddddddddddddddddddddddddddddddddddddddddddddddddddddddddddddd",
                         txResp := Response(503, ScenarioTx()),
                         statusResp := Response(503, ScenarioStatus()));
  }
}
