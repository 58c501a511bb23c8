/** What the bank's SOAP endpoint answers, after parsing and namespace
    stripping, reduced to the nodes the core reads; and the library
    conversions (base64 and charset decoding, float arithmetic) the core
    calls, taken as given functions. */
module Soap {
  import opened Wrappers
  import opened Envelope

  /** What one request asks the bank: the report id to look up, the report
      date and the format. The message id does not influence the answer. */
  datatype Query = Query(rptId: int, date: string, format: Format)

  /** One `Ntry` node: for every path the transformer reads, the list of text
      nodes the path selects (`[0]` of an empty list raises IndexError), and
      for `./Dbtr/Nm` the text of each matching element (None for no text). */
  datatype NtryNode = NtryNode(
    txRef: seq<string>,           // ./Ref/TxRef/text()
    bookgDt: seq<string>,         // ./BookgDt/Dt/text()
    txDt: seq<string>,            // ./TxDt/text()
    trnSrc: seq<string>,          // ./TrnSrc/text()
    opSgn: seq<string>,           // ./OpSgn/text()
    acctId: seq<string>,          // ./SimpAcct/Id/text()
    ccy: seq<string>,             // ./SimpAcct/Ccy/text()
    dbtrId: seq<string>,          // ./Dbtr/Id/text()
    dbtrNm: seq<Option<string>>,  // (./Dbtr/Nm)[k].text
    memo: seq<string>,            // ./MemoFld/MemoFldLn/text()
    amtDtls: seq<string>)         // ./AmtDtls/text()

  /** One `RptDtls` node: the text of each `RptFile` child and of each `RptNm` child. */
  datatype RptDtlsNode = RptDtlsNode(rptFile: seq<Option<string>>, rptNm: seq<Option<string>>)

  /** A parsed response: the `RuleDesc` texts (the bank's business error), the
      `RptId/EQ` texts read as integers (None where `int()` rejects the text),
      the `Ntry` nodes and the `RptDtls` nodes, each in document order. */
  datatype Response = Response(
    ruleDesc: seq<string>,
    rptIdEq: seq<Option<int>>,
    ntrys: seq<NtryNode>,
    rptDtls: seq<RptDtlsNode>)

  /** The bank behind the HTTPS post: None when the post fails or its body is not XML. */
  type Bank = Query -> Option<Response>

  /** Library conversions the core calls and the model does not reimplement:
      `decode` is `base64.b64decode(t).decode(bank_encoding)` (None when either
      step raises); `cents` is `int(float(a) * 100)`, with the exception it
      raises (ValueError when `float` rejects the text or the product is NaN,
      OverflowError when it is infinite); `total` is the Python float repr of
      the running sum of the amounts, in the order they were added. */
  datatype Codec = Codec(
    decode: string -> Option<string>,
    cents: string -> Result<int>,
    total: seq<string> -> string)

  /** `send_soap_request` without its logging: the response and its status. */
  datatype Reply = Reply(response: Response, status: bool)

  function Exchange(bank: Bank, q: Query): (r: Result<Reply>)
  {
    match bank(q)
    case None => Raise(TransportError)
    case Some(resp) => Ok(Reply(resp, |resp.ruleDesc| == 0))
  }
}
