/** The raw report path: `process_report_file_xml`, which pulls the decoded
    report text and its file name out of a `RptDtls` node, and the
    transaction count read from that text with the pattern
    `"il.trn.:(\d+) ` (first match, 0 when none). */
module RawReport {
  import opened Wrappers
  import opened Text
  import opened Soap
  import opened Transformer

  /** The response has no `RptDtls` node, or its first one has no `RptFile` child. */
  predicate NoReportFile(resp: Response)
  {
    |resp.rptDtls| == 0 || |resp.rptDtls[0].rptFile| == 0
  }

  /** The response has no `RptDtls` node, or its first one has no `RptNm` child. */
  predicate NoReportName(resp: Response)
  {
    |resp.rptDtls| == 0 || |resp.rptDtls[0].rptNm| == 0
  }

  predicate EndsWith(s: string, suffix: string)
  {
    |suffix| <= |s| && s[|s| - |suffix|..] == suffix
  }

  /** `process_report_file_xml`: the decoded report text and the file name.
      A missing node is a soft default (IndexError is caught); a node without
      text (TypeError) and a payload that does not decode are not caught. */
  function ProcessReportFile(resp: Response, decode: string -> Option<string>, date: string)
    : (r: Result<(string, string)>)
  {
    var text :-
      if NoReportFile(resp) then Ok("")
      else
        match resp.rptDtls[0].rptFile[0]
        case None => Raise(TypeError)
        case Some(encoded) =>
          match decode(encoded)
          case None => Raise(DecodeError)
          case Some(t) => Ok(t);
    var name :-
      if NoReportName(resp) then Ok("temp_file_" + date + ".txt")
      else
        match resp.rptDtls[0].rptNm[0]
        case None => Raise(TypeError)
        case Some(nm) => Ok(nm + ".txt");
    Ok((text, name))
  }

  /** The fallbacks of `process_report_file_xml`: no file node gives the empty
      text, no name node the default name for the argument date; otherwise the
      decoded payload and the node's name with `.txt`. It raises exactly when a
      node it reads has no text or the payload does not decode. */
  lemma ProcessReportFileFallbacks(resp: Response, decode: string -> Option<string>, date: string)
    ensures var r := ProcessReportFile(resp, decode, date);
            && (r.Ok? ==> EndsWith(r.value.1, ".txt"))
            && (r.Ok? && NoReportFile(resp) ==> r.value.0 == "")
            && (r.Ok? && !NoReportFile(resp) ==>
                  resp.rptDtls[0].rptFile[0].Some? && decode(resp.rptDtls[0].rptFile[0].value) == Some(r.value.0))
            && (r.Ok? && NoReportName(resp) ==> r.value.1 == "temp_file_" + date + ".txt")
            && (r.Ok? && !NoReportName(resp) ==>
                  resp.rptDtls[0].rptNm[0].Some? && r.value.1 == resp.rptDtls[0].rptNm[0].value + ".txt")
            && (r.Raise? <==>
                  (!NoReportFile(resp) && (resp.rptDtls[0].rptFile[0].None?
                                           || decode(resp.rptDtls[0].rptFile[0].value).None?))
                  || (!NoReportName(resp) && resp.rptDtls[0].rptNm[0].None?))
  {
  }

  /** The length of the run of ASCII digits `s` starts with. */
  function DigitRun(s: string): (n: nat)
    ensures n <= |s| && AllDigits(s[..n]) && (n < |s| ==> !IsDigit(s[n]))
  {
    if s == [] || !IsDigit(s[0]) then 0
    else
      var k := DigitRun(s[1..]);
      assert s[..k + 1] == [s[0]] + s[1..][..k];
      k + 1
  }

  /** The digit run is the only length with those properties. */
  lemma DigitRunUnique(s: string, m: nat)
    requires m <= |s| && AllDigits(s[..m]) && (m < |s| ==> !IsDigit(s[m]))
    ensures DigitRun(s) == m
  {
    var n := DigitRun(s);
    assert forall i | 0 <= i < n :: IsDigit(s[i]) by {
      forall i | 0 <= i < n ensures IsDigit(s[i]) { assert s[..n][i] == s[i]; }
    }
    assert forall i | 0 <= i < m :: IsDigit(s[i]) by {
      forall i | 0 <= i < m ensures IsDigit(s[i]) { assert s[..m][i] == s[i]; }
    }
    assert n <= m;
    assert m <= n;
  }

  /** The count the pattern captures when it matches at the start of `t`:
      `"`, `il`, any character but a newline, `trn`, any character but a
      newline, `:`, the greedy digit run, and a space right after that run. */
  function MatchHere(t: string): (r: Option<nat>)
  {
    if |t| >= 9 && t[0] == '"' && t[1] == 'i' && t[2] == 'l' && t[3] != '\n'
       && t[4] == 't' && t[5] == 'r' && t[6] == 'n' && t[7] != '\n' && t[8] == ':'
    then
      var d := DigitRun(t[9..]);
      assert t[9..][..d] == t[9..9 + d];
      if 0 < d && 9 + d < |t| && t[9 + d] == ' ' then Some(DigitsValue(t[9..9 + d])) else None
    else None
  }

  /** The leftmost position at or after `k` where the pattern matches, or -1. */
  function MatchFrom(s: string, k: nat): (i: int)
    requires k <= |s|
    ensures i == -1 || k <= i < |s|
    ensures i == -1 ==> forall j | k <= j <= |s| :: MatchHere(s[j..]).None?
    ensures i >= 0 ==> MatchHere(s[i..]).Some? && forall j | k <= j < i :: MatchHere(s[j..]).None?
    decreases |s| - k
  {
    if k == |s| then -1
    else if MatchHere(s[k..]).Some? then k
    else MatchFrom(s, k + 1)
  }

  /** `trans_count` on the raw path: the integer of the first match, 0 when none. */
  function TransCount(text: string): (n: nat)
  {
    var i := MatchFrom(text, 0);
    if i < 0 then 0 else MatchHere(text[i..]).value
  }

  /** No position of `s` starts a match. */
  predicate NoMarker(s: string)
  {
    forall j | 0 <= j <= |s| :: MatchHere(s[j..]).None?
  }

  lemma DigitRunCut(s: string, k: nat)
    requires k < |s| && !IsDigit(s[k])
    ensures DigitRun(s[..k]) == DigitRun(s) <= k
  {
    var n := DigitRun(s);
    assert forall i | 0 <= i < n :: IsDigit(s[i]) by {
      forall i | 0 <= i < n ensures IsDigit(s[i]) { assert s[..n][i] == s[i]; }
    }
    assert n <= k;
    assert s[..k][..n] == s[..n];
    DigitRunUnique(s[..k], n);
  }

  /** A match never reaches past a newline: cutting the text at a newline does
      not change what matches at its start. */
  lemma MatchCutAtNewline(t: string, p: nat)
    requires p < |t| && t[p] == '\n'
    ensures MatchHere(t) == MatchHere(t[..p])
  {
    var u := t[..p];
    if p >= 9 {
      assert u[..9] == t[..9];
      assert u[9..] == t[9..][..p - 9];
      DigitRunCut(t[9..], p - 9);
      var d := DigitRun(t[9..]);
      if 9 + d < p {
        assert u[9..9 + d] == t[9..9 + d];
      }
    }
  }

  /** Two texts without a match, joined by a newline, hold no match: the
      pattern cannot run across the newline. */
  lemma NoMarkerJoin(a: string, b: string)
    requires NoMarker(a) && NoMarker(b)
    ensures NoMarker(a + "\n" + b)
  {
    var s := a + "\n" + b;
    forall j | 0 <= j <= |s| ensures MatchHere(s[j..]).None? {
      if j <= |a| {
        var p := |a| - j;
        assert s[j..][p] == '\n';
        MatchCutAtNewline(s[j..], p);
        assert s[j..][..p] == a[j..];
      } else {
        assert s[j..] == b[j - |a| - 1..];
      }
    }
  }

  lemma DigitsThenSpace(d: string, rest: string)
    requires AllDigits(d) && |rest| > 0 && rest[0] == ' '
    ensures DigitRun(d + rest) == |d|
  {
    assert (d + rest)[..|d|] == d;
    DigitRunUnique(d + rest, |d|);
  }

  /** The pattern matches a quote-led count marker and captures its digits. */
  lemma MatchOfMarker(d: string, rest: string)
    requires |d| > 0 && AllDigits(d) && |rest| > 0 && rest[0] == ' '
    ensures MatchHere("\"il.trn.:" + (d + rest)) == Some(DigitsValue(d))
  {
    var t := "\"il.trn.:" + (d + rest);
    MarkerChars(t, d + rest);
    assert DigitRun(t[9..]) == |d| by {
      DigitsThenSpace(d, rest);
    }
    assert t[9 + |d|] == ' ' && t[9..9 + |d|] == d by {
      assert t[9..] == d + rest;
    }
    MatchHereOfRun(t, |d|);
  }

  /** The pattern matches where the marker characters are followed by a digit
      run and a space, and captures that run. */
  lemma MatchHereOfRun(t: string, n: nat)
    requires |t| >= 9 && t[0] == '"' && t[1] == 'i' && t[2] == 'l' && t[3] != '\n'
             && t[4] == 't' && t[5] == 'r' && t[6] == 'n' && t[7] != '\n' && t[8] == ':'
    requires 0 < n && 9 + n < |t| && DigitRun(t[9..]) == n && t[9 + n] == ' '
    ensures AllDigits(t[9..9 + n])
    ensures MatchHere(t) == Some(DigitsValue(t[9..9 + n]))
  {
    assert t[9..][..n] == t[9..9 + n];
  }

  /** The characters of the literal marker in front of `u`. */
  lemma MarkerChars(t: string, u: string)
    requires t == "\"il.trn.:" + u
    ensures |t| == 9 + |u| && t[9..] == u
    ensures t[0] == '"' && t[1] == 'i' && t[2] == 'l' && t[3] == '.' && t[4] == 't'
    ensures t[5] == 'r' && t[6] == 'n' && t[7] == '.' && t[8] == ':'
  {
  }

  /** The footer `ntrys2simp` writes matches at its first quote and yields the
      count; no earlier position of the footer matches. */
  lemma FooterMatch(count: nat, total: string)
    ensures var f := FooterLine(count, total) + "\n";
            && MatchHere(f[8..]) == Some(count)
            && forall j | 0 <= j < 8 :: MatchHere(f[j..]).None?
  {
    var f := FooterLine(count, total) + "\n";
    var d := NatToString(count);
    var rest := " wart.trn.:" + total + "\"" + "\n";
    assert f[8..] == "\"il.trn.:" + (d + rest) && f[..8] == "</SIMP2>" by {
      assert f == "</SIMP2>" + ("\"il.trn.:" + (d + rest));
    }
    MatchOfMarker(d, rest);
    DigitsValueOfNatToString(count);
    NoMatchInClosingTag(f);
  }

  /** No match starts inside the closing tag `</SIMP2>`: none of its
      characters is a quote. */
  lemma NoMatchInClosingTag(f: string)
    requires |f| >= 8 && f[..8] == "</SIMP2>"
    ensures forall j | 0 <= j < 8 :: MatchHere(f[j..]).None?
  {
    forall j | 0 <= j < 8 ensures MatchHere(f[j..]).None? {
      assert f[j..][0] == f[..8][j];
    }
  }

  /** Reading the count back: the text ends with the `ntrys2simp` footer, and
      nothing before the footer matches the pattern, so the raw-path count
      is the count the footer wrote. */
  lemma CountOfFooter(body: string, count: nat, total: string)
    requires NoMarker(body)
    requires body == [] || body[|body| - 1] == '\n'
    ensures TransCount(body + FooterLine(count, total) + "\n") == count
  {
    var f := FooterLine(count, total) + "\n";
    FooterMatch(count, total);
    CountAfter(body, f, count);
    assert body + f == body + FooterLine(count, total) + "\n";
  }

  /** A text with no match, ending in a newline, followed by a text whose
      first match is at position 8, yields that match's count. */
  lemma CountAfter(body: string, f: string, count: nat)
    requires NoMarker(body)
    requires body == [] || body[|body| - 1] == '\n'
    requires |f| > 8 && MatchHere(f[8..]) == Some(count)
    requires forall j | 0 <= j < 8 :: MatchHere(f[j..]).None?
    ensures TransCount(body + f) == count
  {
    var s := body + f;
    NoMatchBefore(body, f, 8);
    assert s[|body| + 8..] == f[8..];
    FirstMatch(s, |body| + 8);
  }

  /** The count is read at the leftmost position where the pattern matches. */
  lemma FirstMatch(s: string, i: nat)
    requires i < |s| && MatchHere(s[i..]).Some?
    requires forall j | 0 <= j < i :: MatchHere(s[j..]).None?
    ensures TransCount(s) == MatchHere(s[i..]).value
  {
  }

  /** A text ending in a newline with no match, followed by a text with no
      match in its first `m` positions, has no match before position
      `|body| + m`. */
  lemma NoMatchBefore(body: string, f: string, m: nat)
    requires NoMarker(body)
    requires body == [] || body[|body| - 1] == '\n'
    requires m <= |f| && forall j | 0 <= j < m :: MatchHere(f[j..]).None?
    ensures forall j | 0 <= j < |body| + m :: MatchHere((body + f)[j..]).None?
  {
    var s := body + f;
    forall j | 0 <= j < |body| + m ensures MatchHere(s[j..]).None? {
      if j < |body| {
        NoMatchInBody(body, f, j);
      } else {
        assert s[j..] == f[j - |body|..];
      }
    }
  }

  /** A match starting inside a text that ends in a newline is cut at that
      newline, whatever follows it. */
  lemma NoMatchInBody(body: string, f: string, j: nat)
    requires NoMarker(body)
    requires j < |body| && body[|body| - 1] == '\n'
    ensures MatchHere((body + f)[j..]).None?
  {
    var s := body + f;
    var p := |body| - 1 - j;
    assert s[j..][p] == '\n';
    MatchCutAtNewline(s[j..], p);
    assert s[j..][..p] == body[j..][..p];
    assert body[j..][p] == '\n';
    MatchCutAtNewline(body[j..], p);
  }

  /** The count read back from a text `ntrys2simp` produced is the number of
      entries, provided neither the header line nor any entry line holds the
      pattern. */
  lemma SimpTextCount(es: seq<Entry>, total: string)
    requires |es| > 0 && WellFormed(es)
    requires NoMarker(HeaderLine(es[|es| - 1].bookingDate))
    requires forall i | 0 <= i < |es| :: NoMarker(EntryLine(es[i]))
    ensures TransCount(SimpText(es, total)) == |es|
  {
    var ls := [HeaderLine(es[|es| - 1].bookingDate)] + EntryLines(es);
    forall l | l in ls ensures NoMarker(l) {
      var k :| 0 <= k < |ls| && ls[k] == l;
    }
    NoMarkerLines(ls);
    BodyIsConcatLines(es);
    assert ls[1..] == EntryLines(es);
    var body := HeaderLine(es[|es| - 1].bookingDate) + "\n" + Body(es);
    assert body == ConcatLines(ls);
    CountOfFooter(body, |es|, total);
  }

  /** The XML path and the raw path agree: the count read back from the text
      `ntrys2simp` makes of the `Ntry` nodes is the number of nodes, which is
      the count the XML path records, provided neither the header line nor an
      entry line holds the pattern. */
  lemma XmlTextCount(ntrys: seq<NtryNode>, codec: Codec)
    requires |ntrys| > 0 && SimpOf(ntrys, codec).Ok?
    requires var es := ParseAll(ntrys, codec.cents).value;
             && NoMarker(HeaderLine(es[|es| - 1].bookingDate))
             && forall i | 0 <= i < |es| :: NoMarker(EntryLine(es[i]))
    ensures TransCount(SimpOf(ntrys, codec).value) == |ntrys|
  {
    var es := ParseAll(ntrys, codec.cents).value;
    SimpTextCount(es, codec.total(Amounts(es)));
  }

  lemma {:induction false} NoMarkerLines(ls: seq<string>)
    requires forall l :: l in ls ==> NoMarker(l)
    ensures NoMarker(ConcatLines(ls))
    ensures ls != [] ==> ConcatLines(ls)[|ConcatLines(ls)| - 1] == '\n'
  {
    if ls != [] {
      assert ls[0] in ls;
      NoMarkerLines(ls[1..]);
      NoMarkerJoin(ls[0], ConcatLines(ls[1..]));
    }
  }
}
