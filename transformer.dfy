/** The entry-to-SIMP transformer `ntrys2simp`: a header line, one 20-field
    comma line per `Ntry` in input order, and a footer with the entry count
    and the amount total. */
module Transformer {
  import opened Wrappers
  import opened Text
  import opened Soap

  /** The values read from one `Ntry`. */
  datatype Entry = Entry(
    trId: string,               // the transaction reference without its last character
    bookingDate: string,
    trDate: string,
    trSrc: string,
    sgn: string,
    accountId: string,
    currency: string,
    payerId: string,
    payerNames: seq<string>,    // the four payer-name slots
    memo: string,
    amount: string,             // the amount text as the bank sent it
    cents: int)                 // int(float(amount) * 100)

  /** `xs[0]`, raising IndexError on an empty list. */
  function First(xs: seq<string>): (r: Result<string>)
  {
    if |xs| > 0 then Ok(xs[0]) else Raise(IndexError)
  }

  /** Payer-name slot `k`: `(./Dbtr/Nm)[k].text or ""`, and `""` when there is no k-th node. */
  function NameSlot(names: seq<Option<string>>, k: nat): (name: string)
  {
    if k < |names| && names[k].Some? then names[k].value else ""
  }

  /** Every mandatory path of the node selects at least one text node. */
  predicate HasMandatoryFields(n: NtryNode)
  {
    |n.txRef| > 0 && |n.bookgDt| > 0 && |n.txDt| > 0 && |n.trnSrc| > 0 && |n.opSgn| > 0
    && |n.acctId| > 0 && |n.ccy| > 0 && |n.dbtrId| > 0 && |n.memo| > 0 && |n.amtDtls| > 0
  }

  /** Reads one `Ntry` the way the loop body does, in the same order: the first
      mandatory path with no text raises IndexError, an amount the conversion
      to cents rejects raises the conversion's exception. */
  function ParseNtry(n: NtryNode, cents: string -> Result<int>): (r: Result<Entry>)
    ensures r.Ok? <==> HasMandatoryFields(n) && cents(n.amtDtls[0]).Ok?
  {
    var txRef :- First(n.txRef);
    var bookingDate :- First(n.bookgDt);
    var trDate :- First(n.txDt);
    var trSrc :- First(n.trnSrc);
    var sgn :- First(n.opSgn);
    var accountId :- First(n.acctId);
    var currency :- First(n.ccy);
    var payerId :- First(n.dbtrId);
    var names := [NameSlot(n.dbtrNm, 0), NameSlot(n.dbtrNm, 1), NameSlot(n.dbtrNm, 2), NameSlot(n.dbtrNm, 3)];
    var memo :- First(n.memo);
    var amount :- First(n.amtDtls);
    var c :- cents(amount);
    Ok(Entry(DropLast(txRef), bookingDate, trDate, trSrc, sgn, accountId, currency, payerId, names, memo, amount, c))
  }

  /** What a read yields: a node missing a mandatory path raises IndexError;
      one whose amount does not convert raises the conversion's exception;
      a successful read drops the reference's last character, takes the first
      text of every other path, and fills payer-name slot k with the k-th
      `Nm` text, or "" when that node is missing or has no text. */
  lemma ParseNtryReads(n: NtryNode, cents: string -> Result<int>)
    ensures !HasMandatoryFields(n) ==> ParseNtry(n, cents) == Raise(IndexError)
    ensures HasMandatoryFields(n) && cents(n.amtDtls[0]).Raise? ==>
              ParseNtry(n, cents) == Raise(cents(n.amtDtls[0]).exc)
    ensures ParseNtry(n, cents).Ok? ==>
              var e := ParseNtry(n, cents).value;
              && (|n.txRef[0]| > 0 ==> e.trId + [n.txRef[0][|n.txRef[0]| - 1]] == n.txRef[0])
              && (|n.txRef[0]| == 0 ==> e.trId == "")
              && e.bookingDate == n.bookgDt[0] && e.trDate == n.txDt[0] && e.trSrc == n.trnSrc[0]
              && e.sgn == n.opSgn[0] && e.accountId == n.acctId[0] && e.currency == n.ccy[0]
              && e.payerId == n.dbtrId[0] && e.memo == n.memo[0] && e.amount == n.amtDtls[0]
              && e.cents == cents(n.amtDtls[0]).value
              && |e.payerNames| == 4
              && forall k | 0 <= k < 4 ::
                   e.payerNames[k] == (if k < |n.dbtrNm| && n.dbtrNm[k].Some? then n.dbtrNm[k].value else "")
  {
  }

  /** Reads every node in order; the first node that fails decides the exception. */
  function ParseAll(ntrys: seq<NtryNode>, cents: string -> Result<int>): (r: Result<seq<Entry>>)
    ensures r.Ok? <==> forall i | 0 <= i < |ntrys| :: ParseNtry(ntrys[i], cents).Ok?
    ensures r.Ok? ==> |r.value| == |ntrys|
                      && forall i | 0 <= i < |ntrys| :: ParseNtry(ntrys[i], cents) == Ok(r.value[i])
    ensures r.Ok? ==> WellFormed(r.value)
  {
    if ntrys == [] then Ok([])
    else
      var init := ntrys[..|ntrys| - 1];
      assert forall i | 0 <= i < |init| :: init[i] == ntrys[i];
      var done :- ParseAll(init, cents);
      var e :- ParseNtry(ntrys[|ntrys| - 1], cents);
      ParseAllSnoc(ntrys, done, e, cents);
      Ok(done + [e])
  }

  /** The step of `ParseAll`: the entries read so far, followed by the last
      node's entry, are the reads of every node. */
  lemma ParseAllSnoc(ntrys: seq<NtryNode>, done: seq<Entry>, e: Entry, cents: string -> Result<int>)
    requires |ntrys| > 0 && |done| == |ntrys| - 1 && WellFormed(done)
    requires forall i | 0 <= i < |done| :: ParseNtry(ntrys[i], cents) == Ok(done[i])
    requires ParseNtry(ntrys[|ntrys| - 1], cents) == Ok(e)
    ensures forall i | 0 <= i < |ntrys| :: ParseNtry(ntrys[i], cents) == Ok((done + [e])[i])
    ensures WellFormed(done + [e])
  {
    ParseNtryReads(ntrys[|ntrys| - 1], cents);
  }

  /** If a prefix already fails, the whole list fails with the same exception. */
  lemma {:induction false} ParseAllKeepsFirstFailure(ntrys: seq<NtryNode>, j: nat, cents: string -> Result<int>)
    requires j <= |ntrys|
    requires ParseAll(ntrys[..j], cents).Raise?
    ensures ParseAll(ntrys, cents) == ParseAll(ntrys[..j], cents)
    decreases |ntrys| - j
  {
    if j < |ntrys| {
      var init := ntrys[..|ntrys| - 1];
      assert init[..j] == ntrys[..j];
      ParseAllKeepsFirstFailure(init, j, cents);
    } else {
      assert ntrys[..j] == ntrys;
    }
  }

  function Quote(s: string): (q: string) { "\"" + s + "\"" }

  /** The 20 comma-separated fields of an entry's line, in output order. */
  function LineFields(e: Entry): (fs: seq<string>)
    requires |e.payerNames| == 4
  {
    [e.accountId, IntToString(e.cents), e.sgn, e.currency, e.bookingDate, "UZN", e.trId, "",
     Quote(e.payerId), Quote(e.payerNames[0]), Quote(e.payerNames[1]), Quote(e.payerNames[2]),
     Quote(e.payerNames[3]), Quote(e.memo), Quote(""), Quote(""), Quote(""), e.trSrc, "", e.trDate]
  }

  function EntryLine(e: Entry): (line: string)
    requires |e.payerNames| == 4
  {
    Join(LineFields(e), ',')
  }

  predicate WellFormed(es: seq<Entry>)
  {
    forall i | 0 <= i < |es| :: |es[i].payerNames| == 4
  }

  /** The entry lines, each followed by a newline, in input order. */
  function Body(es: seq<Entry>): (s: string)
    requires WellFormed(es)
  {
    if es == [] then "" else Body(es[..|es| - 1]) + EntryLine(es[|es| - 1]) + "\n"
  }

  function Amounts(es: seq<Entry>): (a: seq<string>)
    ensures |a| == |es| && forall i | 0 <= i < |es| :: a[i] == es[i].amount
  {
    if es == [] then [] else Amounts(es[..|es| - 1]) + [es[|es| - 1].amount]
  }

  function HeaderLine(date: string): (line: string) { "<SIMP2>666," + date }

  function FooterLine(count: nat, total: string): (line: string)
  {
    "</SIMP2>\"il.trn.:" + NatToString(count) + " wart.trn.:" + total + "\""
  }

  /** The report text for entries already read. */
  function SimpText(es: seq<Entry>, total: string): (s: string)
    requires |es| > 0 && WellFormed(es)
  {
    HeaderLine(es[|es| - 1].bookingDate) + "\n" + Body(es) + FooterLine(|es|, total) + "\n"
  }

  /** What `ntrys2simp` returns for a non-empty list of nodes. */
  function SimpOf(ntrys: seq<NtryNode>, codec: Codec): (r: Result<string>)
    requires |ntrys| > 0
  {
    var es :- ParseAll(ntrys, codec.cents);
    Ok(SimpText(es, codec.total(Amounts(es))))
  }

  /** One more node read successfully extends the entries, the body and the amounts. */
  lemma ParseAllStep(ntrys: seq<NtryNode>, i: nat, done: seq<Entry>, cents: string -> Result<int>)
    requires i < |ntrys| && WellFormed(done)
    requires ParseAll(ntrys[..i], cents) == Ok(done)
    requires ParseNtry(ntrys[i], cents).Ok?
    ensures var e := ParseNtry(ntrys[i], cents).value;
            && ParseAll(ntrys[..i + 1], cents) == Ok(done + [e])
            && WellFormed(done + [e])
            && Body(done + [e]) == Body(done) + EntryLine(e) + "\n"
            && Amounts(done + [e]) == Amounts(done) + [e.amount]
  {
    assert ntrys[..i + 1][..i] == ntrys[..i];
    var e := ParseNtry(ntrys[i], cents).value;
    assert (done + [e])[..|done|] == done;
  }

  /** A node that fails to read makes the whole list fail with its exception. */
  lemma ParseAllFailStep(ntrys: seq<NtryNode>, i: nat, done: seq<Entry>, cents: string -> Result<int>)
    requires i < |ntrys|
    requires ParseAll(ntrys[..i], cents) == Ok(done)
    requires ParseNtry(ntrys[i], cents).Raise?
    ensures ParseAll(ntrys, cents) == Raise(ParseNtry(ntrys[i], cents).exc)
  {
    var upto := ntrys[..i + 1];
    assert ParseAll(upto, cents).Raise? by {
      assert upto[..|upto| - 1] == ntrys[..i];
      assert upto[|upto| - 1] == ntrys[i];
    }
    ParseAllKeepsFirstFailure(ntrys, i + 1, cents);
  }

  /** `ntrys2simp`: walks the nodes once, counting them, collecting the amounts
      for the total, appending one line per node and remembering the booking
      date of the node just read; the header and footer are added at the end.
      The only caller passes a non-empty list (with none, the source would
      raise KeyError on the missing booking date). */
  method NtrysToSimp(ntrys: seq<NtryNode>, codec: Codec) returns (r: Result<string>)
    requires |ntrys| > 0
    ensures r == SimpOf(ntrys, codec)
  {
    var trCount := 0;
    var amounts: seq<string> := [];
    var lines := "";
    var bookingDate := "";
    ghost var done: seq<Entry> := [];
    var i := 0;
    while i < |ntrys|
      invariant 0 <= i <= |ntrys|
      invariant ParseAll(ntrys[..i], codec.cents) == Ok(done)
      invariant WellFormed(done)
      invariant trCount == i == |done|
      invariant lines == Body(done)
      invariant amounts == Amounts(done)
      invariant i > 0 ==> bookingDate == done[i - 1].bookingDate
    {
      var e := ParseNtry(ntrys[i], codec.cents);
      if e.Raise? {
        ParseAllFailStep(ntrys, i, done, codec.cents);
        return Raise(e.exc);
      }
      var entry := e.value;
      ParseAllStep(ntrys, i, done, codec.cents);
      trCount := trCount + 1;
      bookingDate := entry.bookingDate;
      amounts := amounts + [entry.amount];
      lines := lines + EntryLine(entry) + "\n";
      done := done + [entry];
      i := i + 1;
    }
    assert ntrys[..i] == ntrys;
    r := Ok(HeaderLine(bookingDate) + "\n" + lines + FooterLine(trCount, codec.total(amounts)) + "\n");
  }

  /** No text field of the entry holds `c`. */
  predicate FieldsAvoid(e: Entry, c: char)
    requires |e.payerNames| == 4
  {
    && c !in e.accountId && c !in e.sgn && c !in e.currency && c !in e.bookingDate
    && c !in e.trId && c !in e.payerId && c !in e.payerNames[0] && c !in e.payerNames[1]
    && c !in e.payerNames[2] && c !in e.payerNames[3] && c !in e.memo && c !in e.trSrc
    && c !in e.trDate
  }

  lemma IntToStringAvoids(i: int, c: char)
    requires !IsDigit(c) && c != '-'
    ensures c !in IntToString(i)
  {
    var s := IntToString(i);
    if i >= 0 {
      assert AllDigits(s);
    } else {
      assert AllDigits(s[1..]);
      assert forall k | 1 <= k < |s| :: s[k] == s[1..][k - 1];
    }
  }

  /** A character that no text field holds, that is neither a digit, a minus
      sign, a quote nor a letter of "UZN", is in none of the 20 fields. */
  lemma LineFieldsAvoid(e: Entry, c: char)
    requires |e.payerNames| == 4 && FieldsAvoid(e, c)
    requires !IsDigit(c) && c != '-' && c != '"' && c != 'U' && c != 'Z' && c != 'N'
    ensures forall f :: f in LineFields(e) ==> c !in f
  {
    IntToStringAvoids(e.cents, c);
    assert c !in Quote(e.payerId) && c !in Quote(e.memo) && c !in Quote("");
    assert c !in Quote(e.payerNames[0]) && c !in Quote(e.payerNames[1]);
    assert c !in Quote(e.payerNames[2]) && c !in Quote(e.payerNames[3]);
    assert c !in "UZN" && c !in "";
  }

  /** Cutting an entry's line at commas gives back its 20 fields (account, cents,
      sign, currency, booking date, "UZN", reference, blank, the quoted payer id,
      the four quoted payer names, the quoted memo, three quoted blanks, source,
      blank, transaction date), provided no text field holds a comma. */
  lemma EntryLineFields(e: Entry)
    requires |e.payerNames| == 4 && FieldsAvoid(e, ',')
    ensures |Split(EntryLine(e), ',')| == 20
    ensures Split(EntryLine(e), ',')[1] == IntToString(e.cents)
    ensures Split(EntryLine(e), ',')[6] == e.trId
    ensures forall k | 0 <= k < 4 :: Split(EntryLine(e), ',')[9 + k] == Quote(e.payerNames[k])
  {
    SplitEntryLine(e);
    LineFieldsAt(e);
  }

  /** The fields of `LineFields` that `EntryLineFields` names, by position. */
  lemma LineFieldsAt(e: Entry)
    requires |e.payerNames| == 4
    ensures |LineFields(e)| == 20
    ensures LineFields(e)[1] == IntToString(e.cents) && LineFields(e)[6] == e.trId
    ensures forall k | 0 <= k < 4 :: LineFields(e)[9 + k] == Quote(e.payerNames[k])
  {
    var fs := LineFields(e);
    assert fs[9] == Quote(e.payerNames[0]) && fs[10] == Quote(e.payerNames[1]);
    assert fs[11] == Quote(e.payerNames[2]) && fs[12] == Quote(e.payerNames[3]);
  }

  lemma SplitEntryLine(e: Entry)
    requires |e.payerNames| == 4 && FieldsAvoid(e, ',')
    ensures Split(EntryLine(e), ',') == LineFields(e)
  {
    LineFieldsAvoid(e, ',');
    var fs := LineFields(e);
    SplitJoin(fs, ',');
    assert EntryLine(e) == Join(fs, ',');
  }

  /** The lines of the text: header, entry lines in input order, footer. */
  function TextLines(es: seq<Entry>, total: string): (ls: seq<string>)
    requires |es| > 0 && WellFormed(es)
  {
    [HeaderLine(es[|es| - 1].bookingDate)] + EntryLines(es) + [FooterLine(|es|, total)]
  }

  function EntryLines(es: seq<Entry>): (ls: seq<string>)
    requires WellFormed(es)
    ensures |ls| == |es| && forall i | 0 <= i < |es| :: ls[i] == EntryLine(es[i])
  {
    if es == [] then [] else EntryLines(es[..|es| - 1]) + [EntryLine(es[|es| - 1])]
  }

  lemma {:induction false} BodyIsConcatLines(es: seq<Entry>)
    requires WellFormed(es)
    ensures Body(es) == ConcatLines(EntryLines(es))
  {
    if es != [] {
      BodyIsConcatLines(es[..|es| - 1]);
      ConcatLinesSnoc(EntryLines(es[..|es| - 1]), EntryLine(es[|es| - 1]));
    }
  }

  /** The report text is exactly its lines, each ended by a newline. */
  lemma {:induction false} SimpTextIsLines(es: seq<Entry>, total: string)
    requires |es| > 0 && WellFormed(es)
    ensures SimpText(es, total) == ConcatLines(TextLines(es, total))
  {
    var h := HeaderLine(es[|es| - 1].bookingDate);
    var f := FooterLine(|es|, total);
    var ls := EntryLines(es);
    BodyIsConcatLines(es);
    ConcatLinesSnoc([h] + ls, f);
    assert ([h] + ls)[1..] == ls;
    assert TextLines(es, total) == ([h] + ls) + [f];
  }

  /** Cutting the report text at newlines gives the header (holding the last
      entry's booking date), one line per entry in input order and the footer
      (holding the entry count), then the empty rest after the final newline,
      provided no field and not the total holds a newline. */
  lemma SimpTextSplitsIntoLines(es: seq<Entry>, total: string)
    requires |es| > 0 && WellFormed(es)
    requires forall i | 0 <= i < |es| :: FieldsAvoid(es[i], '\n')
    requires '\n' !in total
    ensures Split(SimpText(es, total), '\n') == TextLines(es, total) + [""]
    ensures |Split(SimpText(es, total), '\n')| == |es| + 3
    ensures Split(SimpText(es, total), '\n')[0] == "<SIMP2>666," + es[|es| - 1].bookingDate
    ensures forall i | 0 <= i < |es| :: Split(SimpText(es, total), '\n')[i + 1] == EntryLine(es[i])
    ensures Split(SimpText(es, total), '\n')[|es| + 1] == FooterLine(|es|, total)
  {
    var ls := TextLines(es, total) + [""];
    SimpTextIsLines(es, total);
    ConcatLinesIsJoin(TextLines(es, total));
    TextLinesAvoidNewline(es, total);
    SplitJoin(ls, '\n');
  }

  /** No line of the text holds a newline of its own. */
  lemma TextLinesAvoidNewline(es: seq<Entry>, total: string)
    requires |es| > 0 && WellFormed(es)
    requires forall i | 0 <= i < |es| :: FieldsAvoid(es[i], '\n')
    requires '\n' !in total
    ensures forall l | l in TextLines(es, total) + [""] :: '\n' !in l
  {
    var ls := TextLines(es, total) + [""];
    forall l | l in ls ensures '\n' !in l {
      var k :| 0 <= k < |ls| && ls[k] == l;
      TextLineAvoidsNewline(es, total, k);
    }
  }

  /** One line of `TextLinesAvoidNewline`, by its position. */
  lemma TextLineAvoidsNewline(es: seq<Entry>, total: string, k: nat)
    requires |es| > 0 && WellFormed(es)
    requires forall i | 0 <= i < |es| :: FieldsAvoid(es[i], '\n')
    requires '\n' !in total
    requires k < |es| + 3
    ensures '\n' !in (TextLines(es, total) + [""])[k]
  {
    var body := EntryLines(es);
    var ls := TextLines(es, total) + [""];
    PartAt(HeaderLine(es[|es| - 1].bookingDate), body, FooterLine(|es|, total), k);
    if k == 0 {
      HeaderAvoidsNewline(es[|es| - 1].bookingDate);
    } else if k <= |es| {
      EntryLineAvoids(es[k - 1], '\n');
    } else if k == |es| + 1 {
      FooterAvoidsNewline(|es|, total);
    }
  }

  /** Position k of a header, the lines of a body, a footer and an empty rest. */
  lemma PartAt(header: string, body: seq<string>, footer: string, k: nat)
    requires k < |body| + 3
    ensures ([header] + body + [footer] + [""])[k]
            == if k == 0 then header
               else if k <= |body| then body[k - 1]
               else if k == |body| + 1 then footer
               else ""
  {
  }

  lemma EntryLineAvoids(e: Entry, c: char)
    requires |e.payerNames| == 4 && FieldsAvoid(e, c)
    requires !IsDigit(c) && c != '-' && c != '"' && c != 'U' && c != 'Z' && c != 'N' && c != ','
    ensures c !in EntryLine(e)
  {
    LineFieldsAvoid(e, c);
    JoinAvoids(LineFields(e), ',', c);
  }

  lemma HeaderAvoidsNewline(date: string)
    requires '\n' !in date
    ensures '\n' !in HeaderLine(date)
  {
    assert '\n' !in "<SIMP2>666,";
  }

  lemma FooterAvoidsNewline(count: nat, total: string)
    requires '\n' !in total
    ensures '\n' !in FooterLine(count, total)
  {
    assert AllDigits(NatToString(count));
    assert '\n' !in "</SIMP2>\"il.trn.:" && '\n' !in " wart.trn.:" && '\n' !in "\"";
  }

  /** A join avoids a character that neither the parts nor the separator hold. */
  lemma {:induction false} JoinAvoids(parts: seq<string>, sep: char, c: char)
    requires sep != c
    requires forall p :: p in parts ==> c !in p
    ensures c !in Join(parts, sep)
  {
    if |parts| > 1 {
      assert parts[0] in parts;
      JoinAvoids(parts[1..], sep, c);
    } else if |parts| == 1 {
      assert parts[0] in parts;
    }
  }
}
