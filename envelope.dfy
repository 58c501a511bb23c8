/** The SOAP request body `get_soap_request_body` renders: a fixed template (after
    `textwrap.dedent`) with five values dropped in, nothing escaped. */
module Envelope {
  import opened Wrappers
  import opened Text

  /** The `rpt_format` value: `XML` asks for itemised entries (the default),
      `RAW` for the bank's base64 report file. */
  datatype Format = XML | RAW {
    function Name(): (s: string)
      ensures s == "XML" || s == "RAW"
    {
      match this
      case XML => "XML"
      case RAW => "RAW"
    }
  }

  // The dedented template, cut at its five placeholders.
  const Fragment0: string :=
    "\n" + "<soapenv:Envelope xmlns:soapenv=\"http://schemas.xmlsoap.org/soap/envelope/\"" + " xmlns:urn=\"urn:ca:std:ccs:ing:tech:xsd:mhdr.001.001.01\"" + " xmlns:urn1=\"urn:ca:std:cdc:tech:xsd:ing.cdc.001.01\"" + " xmlns:urn2=\"urn:ca:std:ccs:ing:tech:xsd:rpts.013.001.01\">"
    + "\n" + "   " + "<soapenv:Header/>"
    + "\n" + "   " + "<soapenv:Body>"
    + "\n" + "      " + "<urn1:GetMCReport>"
    + "\n" + "         " + "<urn2:Document>"
    + "\n" + "            " + "<urn2:GetMCRpt>"
    + "\n" + "               " + "<urn2:MsgId>"
    + "\n" + "                  " + "<urn2:Id>"
  const Fragment1: string :=
    "</urn2:Id>"
    + "\n" + "               " + "</urn2:MsgId>"
    + "\n" + "               " + "<urn2:RptMCQryDef>"
    + "\n" + "                  " + "<urn2:RptMCCrit>"
    + "\n" + "                     " + "<urn2:NewCrit>"
    + "\n" + "                        " + "<urn2:SchCrit>"
    + "\n" + "                           " + "<urn2:Cdtr>"
    + "\n" + "                              " + "<urn2:EQ>"
  const Fragment2: string :=
    "</urn2:EQ>"
    + "\n" + "                           " + "</urn2:Cdtr>"
    + "\n" + "                           " + "<urn2:RptDt>"
    + "\n" + "                              " + "<urn2:DtSch>"
    + "\n" + "                                 " + "<urn2:Dt>"
  const Fragment3: string :=
    "</urn2:Dt>"
    + "\n" + "                              " + "</urn2:DtSch>"
    + "\n" + "                           " + "</urn2:RptDt>"
    + "\n" + "                           " + "<urn2:RptId>"
    + "\n" + "                              " + "<urn2:EQ>"
  const Fragment4: string :=
    "</urn2:EQ>"
    + "\n" + "                           " + "</urn2:RptId>"
    + "\n" + "                           " + "<urn2:RptFrmt>"
  const Fragment5: string :=
    "</urn2:RptFrmt>"
    + "\n" + "                        " + "</urn2:SchCrit>"
    + "\n" + "                     " + "</urn2:NewCrit>"
    + "\n" + "                  " + "</urn2:RptMCCrit>"
    + "\n" + "               " + "</urn2:RptMCQryDef>"
    + "\n" + "            " + "</urn2:GetMCRpt>"
    + "\n" + "         " + "</urn2:Document>"
    + "\n" + "      " + "</urn1:GetMCReport>"
    + "\n" + "   " + "</soapenv:Body>"
    + "\n" + "</soapenv:Envelope>"
    + "\n"

  /** The rendered body: template fragments interleaved with `msg_id`,
      `simp_code`, `date`, `str(rpt_id)` and `rpt_format`. */
  function RequestBody(msgId: string, simpCode: string, date: string, rptId: int, format: Format): (r: string)
  {
    Fragment0 + (msgId + (Fragment1 + (simpCode + (Fragment2 + (date
      + (Fragment3 + (IntToString(rptId) + (Fragment4 + (format.Name() + Fragment5)))))))))
  }

  /** The five values a body carries, as text. */
  datatype Fields = Fields(msgId: string, simpCode: string, date: string, rptId: string, format: string)

  /** What follows `lit` in `s`, if `s` starts with it. */
  function After(s: string, lit: string): (r: Option<string>)
    ensures r.Some? <==> lit <= s
    ensures r.Some? ==> s == lit + r.value
  {
    if lit <= s then Some(s[|lit|..]) else None
  }

  /** Splits `s` before its first `<`: the text of an element and the markup after it. */
  function TakeText(s: string): (r: (string, string))
    ensures r.0 + r.1 == s
    ensures '<' !in r.0
    ensures r.1 == [] || r.1[0] == '<'
  {
    var i := Find(s, '<');
    if i < 0 then (s, "") else (s[..i], s[i..])
  }

  lemma TakeTextOfValue(v: string, t: string)
    requires '<' !in v
    requires |t| > 0 && t[0] == '<'
    ensures TakeText(v + t) == (v, t)
  {
    assert v + t == v + ['<'] + t[1..];
    FindAfterPrefix(v, '<', t[1..]);
    assert (v + t)[..|v|] == v;
    assert (v + t)[|v|..] == t;
  }

  /** After the literal `lit`, the text up to the next `<` and the rest. */
  function Field(s: string, lit: string): (r: Option<(string, string)>)
    ensures r.Some? ==> '<' !in r.value.0
  {
    var rest :- After(s, lit);
    Some(TakeText(rest))
  }

  lemma FieldOfValue(lit: string, v: string, t: string)
    requires '<' !in v
    requires |t| > 0 && t[0] == '<'
    ensures Field(lit + (v + t), lit) == Some((v, t))
  {
    assert (lit + (v + t))[|lit|..] == v + t;
    TakeTextOfValue(v, t);
  }

  /** Reads the five values back out of a body: the partner of `RequestBody`. */
  function ParseBody(s: string): (r: Option<Fields>)
    ensures r.Some? ==> '<' !in r.value.msgId && '<' !in r.value.simpCode && '<' !in r.value.date
                        && '<' !in r.value.rptId && '<' !in r.value.format
  {
    var f1 :- Field(s, Fragment0);
    var f2 :- Field(f1.1, Fragment1);
    var f3 :- Field(f2.1, Fragment2);
    var f4 :- Field(f3.1, Fragment3);
    var f5 :- Field(f4.1, Fragment4);
    if f5.1 == Fragment5 then Some(Fields(f1.0, f2.0, f3.0, f4.0, f5.0)) else None
  }

  lemma FragmentsOpenWithTag()
    ensures Fragment1[0] == '<' && Fragment2[0] == '<' && Fragment3[0] == '<'
    ensures Fragment4[0] == '<' && Fragment5[0] == '<'
  {
  }

  /** Values free of `<` come back out of the body unchanged, and the report id
      comes back as the integer that was sent: the bank sees exactly the query. */
  lemma ParseRequestBody(msgId: string, simpCode: string, date: string, rptId: int, format: Format)
    requires '<' !in msgId && '<' !in simpCode && '<' !in date
    ensures ParseBody(RequestBody(msgId, simpCode, date, rptId, format))
            == Some(Fields(msgId, simpCode, date, IntToString(rptId), format.Name()))
    ensures ParseInt(IntToString(rptId)) == Some(rptId)
  {
    ParseIntOfIntToString(rptId);
    FragmentsOpenWithTag();
    var id := IntToString(rptId);
    var fmt := format.Name();
    assert '<' !in fmt;
    var t4 := Fragment4 + (fmt + Fragment5);
    var t3 := Fragment3 + (id + t4);
    var t2 := Fragment2 + (date + t3);
    var t1 := Fragment1 + (simpCode + t2);
    var body := RequestBody(msgId, simpCode, date, rptId, format);
    assert body == Fragment0 + (msgId + t1);
    FieldOfValue(Fragment0, msgId, t1);
    FieldOfValue(Fragment1, simpCode, t2);
    FieldOfValue(Fragment2, date, t3);
    FieldOfValue(Fragment3, id, t4);
    FieldOfValue(Fragment4, fmt, Fragment5);
    assert Field(body, Fragment0) == Some((msgId, t1));
    assert Field(t1, Fragment1) == Some((simpCode, t2));
    assert Field(t2, Fragment2) == Some((date, t3));
    assert Field(t3, Fragment3) == Some((id, t4));
    assert Field(t4, Fragment4) == Some((fmt, Fragment5));
  }

  /** Nothing is escaped: a date holding `<` does not survive the round trip, so
      the bank reads a different date than the one the caller passed. */
  lemma UnescapedDateIsLost(msgId: string, simpCode: string, date: string, rptId: int, format: Format)
    requires '<' in date
    ensures ParseBody(RequestBody(msgId, simpCode, date, rptId, format))
            != Some(Fields(msgId, simpCode, date, IntToString(rptId), format.Name()))
  {
  }
}
