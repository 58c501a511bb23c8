# ING SIMP report handler — a Dafny model

`simp.py` fetches a bank's daily SIMP settlement reports over a SOAP web
service. It probes report slots one after another until the bank answers
with a business error (`RuleDesc`). It then turns each report into the SIMP
flat-text format: either the bank's base64 report file (raw form) or
itemised `Ntry` entries rendered line by line. Finally it prints, saves or
mails the reports that hold transactions.

This project models the core of the `SimpReport` class and the namespace
normaliser:

- **`Namespace`** (`namespace.dfy`). `remove_namespace` cuts every Clark
  tag `{uri}local` down to the text after the first `}`. It works in place
  on an array of document nodes.
- **`Envelope`** (`envelope.dfy`). `get_soap_request_body` fills the fixed
  template with the message id, customer code, date, report id and format.
  A parser reads those five values back out of a rendered body.
- **`Soap`** (`soap.dfy`). The bank is an oracle from a query (slot or id,
  date, format) to a parsed, namespace-stripped response. A missing answer
  is a transport failure. The library conversions are given functions:
  base64 plus charset decoding, `int(float(a) * 100)`, and the float repr
  of the running total.
- **`Transformer`** (`transformer.dfy`). `ntrys2simp` is a loop over the
  entries, proved against a specification function. That function is a
  header `<SIMP2>666,<last booking date>`, one 20-field comma line per
  entry, and a footer `</SIMP2>"il.trn.:<count> wart.trn.:<total>"`.
  Mandatory paths that select nothing raise IndexError. An amount `float`
  rejects raises ValueError. An infinite product raises OverflowError.
- **`RawReport`** (`rawreport.dfy`). This covers the fallbacks of
  `process_report_file_xml`. It also covers the count read from a decoded
  report with the pattern `"il.trn.:(\d+) `, where `.` means any character
  but a newline.
- **`Reports`** (`reports.dfy`). The `SimpReport` class holds `reports`
  (the records list), `sent` (the requests posted, in order) and
  `errorLog` (the error-level log lines). Its methods are
  `send_soap_request`, `get_rpt_id`, `get_report`, `get_reports` and
  `get`/`save`/`send`.
  - The `get_reports` loop is proved against `Walk`, a fuel-bounded
    function over one `get_report` step (a `Stepper`).
  - Lemmas about `Walk` state the pagination invariant: the request
    order, the slot-to-id chaining, and the status of every record.
- **`Text`** and **`Wrappers`** (`text.dfy`, `wrappers.dfy`): decimal
  rendering and parsing, `find`, split/join, and the `Option`/`Result`
  types. Python exceptions become `Raise` values of `Result`.

Behaviours of the code that the model keeps as written:

- **Envelope values are not escaped.** A date holding `<` does not reach
  the bank as sent (`Envelope.UnescapedDateIsLost`).
- **The raw form loops.** `get_reports` follows the same probe/fetch chain
  in raw form as in XML form; there is no stop after the first fetch.
- **Namespace stripping is not idempotent on every tag.** It is idempotent
  on Clark tags whose local part holds no `{`. A tag such as `{a}{b}c` loses
  one brace group per pass (`Namespace.StripNotIdempotent`).
- **Missing mandatory paths are fatal.** A missing mandatory path of an
  `Ntry` raises IndexError and aborts the transform. Only the payer-name
  slots default to `""`.
- **A failing first probe can log two error lines.** The status stays
  False and `reports` is still empty when the fetch at the same slot is
  posted. If that fetch also carries `RuleDesc`, it logs a second error
  line.
- **The status of a record comes from the probe.** The fetch's status is
  ignored.
- **Both file-name fallbacks use the argument date.** The XML-form name
  `ING-SIMP_<date>_<id>.txt` and the raw-form `temp_file_<date>.txt` use
  `args.date`, not the record's date.
- **`get`, `save` and `send` use the raw form.** They call `get_reports`
  with its default `raw=True`.

## Model

| member | source | states |
|---|---|---|
| Namespace.StripNamespace | simp.py:37-39 | A tag opening with `{` and holding a `}` becomes exactly what follows its first `}`; every other tag, including one that opens with `{` but has no `}`, is returned unchanged |
| Namespace.StripNamespaceFixedPoint | simp.py:37-39 | The rewrite leaves a tag unchanged if and only if the tag carries no namespace |
| Namespace.StripTwice | simp.py:37-39 | A second rewrite changes nothing exactly when the first result carries no namespace of its own |
| Namespace.StripClarkTag | simp.py:37-39 | For a Clark tag `{uri}local` whose local part holds no `{`, one rewrite yields `local` and a second rewrite changes nothing |
| Namespace.StripNotIdempotent | simp.py:37-39 | `{a}{b}c` becomes `{b}c` after one pass and `c` after two, so the rewrite is not idempotent on all strings |
| Namespace.Normalize | simp.py:36-39 | What one pass does to one node: an element gets its tag rewritten by `StripNamespace`, and any other node is left as it is |
| Namespace.StripNode | simp.py:36-39 | The loop body for one node returns exactly the node `Normalize` gives |
| Namespace.RemoveNamespace | simp.py:33-39 | After the in-place loop, every node of the document array is its old value with the element tag rewritten; non-element nodes are kept |
| Envelope.RequestBody | simp.py:98-135 | The request body: the dedented template with `msg_id`, `simp_code`, `date`, `str(rpt_id)` and `rpt_format` filled in, in that order and unescaped |
| Envelope.ParseRequestBody | simp.py:98-135 | Reading the five values back out of a rendered body gives the message id, customer code, date, `str(rpt_id)` and format that were put in, when none of the texts holds `<`; the id text parses back to the same integer |
| Envelope.UnescapedDateIsLost | simp.py:135 | Because nothing is escaped, a date holding `<` is never read back from the rendered body |
| Reports.PostedCarriesQuery | simp.py:138-143 | The k-th body the handler posts, stamped with the k-th clock value, carries exactly the k-th recorded request |
| Reports.LogOf | simp.py:149-155 | At most one error line; there is one exactly when the reply arrived and carries `RuleDesc` text, and it holds the date, the report id and those texts |
| Soap.Exchange | simp.py:143-160 | The post and the parse of `send_soap_request`: no answer raises TransportError; otherwise the reply is the response with status True exactly when it has no `RuleDesc` text |
| Reports.RptIdOf | simp.py:168-171 | What `get_rpt_id` makes of the probe's reply: a `RuleDesc` keeps the probed slot with False; otherwise the first `RptId/EQ` value with True, IndexError when there is none and ValueError when `int()` rejects it |
| Reports.SimpReport.SendSoapRequest | simp.py:138-160 | Posts one request, which is appended to `sent`. It returns the bank's answer with status False exactly when `RuleDesc` is present, and raises on a transport failure. It logs the error line only while `reports` is empty and leaves `reports` alone |
| Reports.SimpReport.GetRptId | simp.py:163-171 | Probes the slot in XML form: one request is appended to `sent`, and `reports` is unchanged. By the bank's answer: no answer raises TransportError; a `RuleDesc` gives the probed slot with False; otherwise the first `RptId/EQ` value comes back with True, IndexError when there is no such node and ValueError when `int()` rejects it |
| Reports.SimpReport.constructor | simp.py:92-96 | A new handler has no reports, no requests posted and no error lines |
| Reports.ProbeAt | simp.py:163-171 | `get_rpt_id` for a date and a slot: the probe, then `RptIdOf` of its reply |
| Reports.RecordOf | simp.py:201-222 | The record `get_report` builds from the fetched response: in raw form the report file's text and name with the count the pattern reads; in XML form the `ntrys2simp` text (or `''` with no entries), the `Ntry` count and `ING-SIMP_<args.date>_<id>.txt` |
| Reports.FetchAt | simp.py:198-224 | The fetch half of `get_report`: the fetch of the id in the chosen form, then `RecordOf` of its response |
| Reports.ReportAt | simp.py:189-224 | `get_report` for a date and a slot: `ProbeAt`, then `FetchAt` of the id and status it returns |
| Reports.ProbeAnswers | simp.py:163-171 | By the bank's answer to the probe: no answer raises TransportError. A `RuleDesc` gives the probed slot with False. With no `RuleDesc`, no `RptId/EQ` node raises IndexError, an id `int()` rejects raises ValueError, and otherwise the id comes back with True |
| Reports.ReportByProbe | simp.py:189-224 | `get_report` by the bank's answer to the probe. No answer raises TransportError after one request and no error line. A `RuleDesc` logs its error line first, and the probed slot is fetched next; its record keeps that slot with status False. An answer without a usable id raises after one request and no error line. A usable id is fetched next, that fetch's log line is the only one, and the record carries that id with status True |
| Reports.ReportFacts | simp.py:163-224 | A record's status is the probe's status. A record with status False keeps the probed slot as its id. A record with status True carries the probe's first `RptId/EQ` value. The record carries the date asked for. In XML form the count is the number of `Ntry` nodes, the name is `ING-SIMP_<args.date>_<id>.txt`, and the text is `''` when there are no entries and the transform of the entries otherwise. In raw form the count is what the pattern reads from the text |
| Reports.SimpReport.FetchReport | simp.py:201-222 | Posts the fetch for the resolved id. In raw form it builds the record from the report file and the pattern count; in XML form, from the `Ntry` nodes, with `''` when there are none |
| Reports.SimpReport.GetReport | simp.py:189-224 | Probe then fetch. It returns the record of `ReportAt` and appends it to `reports`, whatever its status. The requests posted are the probe and, unless it raised, the fetch. Error lines are logged only when `reports` was empty |
| Reports.StepsPaired | simp.py:189-224 | Every `get_report` first probes its slot in XML form, posts at most two requests, and, when it returns a record, fetches exactly the id that record carries |
| Reports.SimpReport.GetReports | simp.py:174-186 | Resets `reports`, then leaves it equal to the records of the walk from slot 0. The requests appended to `sent` are the walk's, and it returns the walk's outcome. Error lines come only from the first `get_report` |
| Reports.Walk | simp.py:179-186 | The loop of `get_reports` from a slot: the records, requests and outcome of `get_report` at that slot followed by `Continue` after its record, or the exception it raised |
| Reports.Continue | simp.py:182-184 | What follows a record in the loop: nothing after status False, nothing once the fuel is spent, otherwise `Walk` from the slot after the record's id |
| Reports.SimpReport.FetchFirst | simp.py:179-181 | The first `get_report` of the loop, at slot 0, as the first step of the walk |
| Reports.SimpReport.FollowChain | simp.py:182-184 | While the last record's status is True, fetches the slot after its id. The records and requests appended, and the outcome, are the rest of the walk after that record |
| Reports.SimpReport.FetchNext | simp.py:183-184 | One turn of the loop: the next `get_report` advances the walk by one step, or ends it with the exception it raised |
| Reports.WalkShape | simp.py:179-186 | Every record but the last has status True. A finished walk ends with the record whose status is False, which is the returned record. In a walk that raised, every record has status True |
| Reports.WalkQueries | simp.py:179-186 | Requests come in probe/fetch pairs. The first probe asks for slot 0. Each fetch asks for the id its record carries, and each record is `get_report` at its probed slot. The probe after a record asks for that record's id + 1 |
| Reports.Pagination | simp.py:174-186 | The pagination invariant for `get_reports` on the bank itself: the probe chain starts at slot 0, each record is what `get_report` returns at its slot, and the next slot is the previous id + 1. Records followed by a probe have status True, and a finished walk ends with status False |
| Reports.WalkPagination | simp.py:174-186 | The pagination invariant for any step function that behaves as `get_report` |
| Reports.WalkFuelEnough | simp.py:182-184 | The model's probe bound does not change a walk that finished or raised: with more fuel, the records, the requests and the outcome are the same |
| Transformer.ParseNtry | simp.py:282-309 | Reading one `Ntry` succeeds exactly when every mandatory path selects a text and the amount converts to cents |
| Transformer.ParseNtryReads | simp.py:282-308 | A node missing a mandatory path raises IndexError; an amount that does not convert raises the conversion's exception. A successful read drops the last character of the reference, and each other field is the first text of its path (both dates, source, sign, account, currency, payer id, memo, amount). The cents are the amount's conversion. Payer-name slot k is the k-th `Nm` text, or `""` when that node is missing or has no text |
| Transformer.ParseAll | simp.py:277-309 | The entries read succeed exactly when every node reads. There is one entry per node, in input order, each with four name slots |
| Transformer.ParseAllKeepsFirstFailure | simp.py:277-309 | Once a prefix of the nodes fails, the whole list fails with that same exception |
| Transformer.NtrysToSimp | simp.py:267-320 | The loop returns the specified text: header, one line per entry and footer, counted, totalled and dated as it goes. It raises the first exception a node raises |
| Transformer.EntryLineFields | simp.py:311 | An entry line has 20 comma-separated fields: field 1 is the cents value, field 6 the shortened reference, and fields 9-12 are the four quoted payer-name slots, when no text field holds a comma |
| Transformer.SplitEntryLine | simp.py:311 | Splitting an entry line at commas gives back exactly its 20 fields, in order, when no text field holds a comma |
| Transformer.SimpText | simp.py:311-318 | The text `ntrys2simp` returns for entries already read: the header with the last entry's booking date, one line per entry, and the footer with the count and the total |
| Transformer.SimpOf | simp.py:267-320 | `ntrys2simp` of a non-empty node list: the first read failure, or `SimpText` of the entries with the total of their amounts |
| Transformer.SimpTextSplitsIntoLines | simp.py:311-318 | The text has `count + 3` newline-separated parts: the header `<SIMP2>666,<last booking date>`, one line per entry in input order, the footer, then the empty rest, when no field holds a newline |
| RawReport.ProcessReportFileFallbacks | simp.py:253-264 | With no `RptDtls` or no `RptFile`, the text is `''`; otherwise it is the decoded payload. The name is `RptNm + '.txt'`, or `temp_file_<args.date>.txt` with no `RptNm`. It raises exactly when a node read has no text or the payload does not decode |
| RawReport.ProcessReportFile | simp.py:227-264 | `process_report_file_xml`: the decoded report file (or `''` with none) and its name (or `temp_file_<date>.txt` with none), raising TypeError for a file or name node without text and DecodeError when decoding fails |
| RawReport.DigitRun | simp.py:206 | `\d+` is greedy: the run covers only digits and stops before a non-digit or at the end |
| RawReport.DigitRunUnique | simp.py:206 | The greedy digit run is the only length with those properties |
| RawReport.MatchFrom | simp.py:206 | The first match at or after a position is the leftmost position where the pattern matches; -1 means no match there or after |
| RawReport.MatchCutAtNewline | simp.py:206 | A match never runs past a newline, because the wildcards exclude it |
| RawReport.NoMarkerJoin | simp.py:206 | Two texts without a match, joined by a newline, have no match |
| RawReport.MatchHere | simp.py:206 | The pattern `"il.trn.:(\d+) ` at the start of a text: the value of the digits when it matches there |
| RawReport.TransCount | simp.py:206-208 | The count `get_report` reads from a raw text: the captured digits of the first match, or 0 when there is none |
| RawReport.MatchOfMarker | simp.py:206-208 | The pattern matches a `"il.trn.:` marker followed by digits and a space and captures the value of those digits |
| RawReport.FooterMatch | simp.py:316 | The footer `ntrys2simp` writes matches at its quote and yields the entry count; no earlier position of the footer matches |
| RawReport.CountOfFooter | simp.py:206-208 | The count read from a text that ends with the footer, with no match before it, is the footer's count |
| RawReport.SimpTextCount | simp.py:206-208 | The count read back from a `ntrys2simp` text is the number of entries, when neither the header nor any entry line holds the marker |
| RawReport.XmlTextCount | simp.py:206-218 | XML and raw forms agree: the raw-form count of the text `ntrys2simp` builds from the `Ntry` nodes equals the XML-form count, the number of nodes |
| Reports.Selected | simp.py:326-327 | The records kept for output are exactly those with status True and a positive count, in list order |
| Reports.SelectedAppend | simp.py:326-327 | Filtering a concatenation filters each part |
| Reports.PrintDelivered | simp.py:326-328 | The printing loop outputs the texts of the kept records, in order |
| Reports.SaveDelivered | simp.py:336-341 | The saving loop writes each kept record's text to its file name, in order, and collects those names |
| Reports.SimpReport.Get | simp.py:323-330 | Runs `get_reports` for the argument date in raw form and prints the kept records. The requests it posts and the error lines it logs are those of the walk from slot 0 |
| Reports.SimpReport.Save | simp.py:333-343 | Runs `get_reports` like `get` and writes one file per kept record, after the same requests and error lines |
| Reports.SimpReport.Send | simp.py:346-365 | Saves like `save`. It composes the mail (from, to, subject, message, files) exactly when at least one file was written, after the same requests and error lines as `get` |
| Reports.MailOf | simp.py:349-362 | The mail `send` composes: from `mail_from` to `[mail_to, mail_from]`, the subject and message naming the argument date, and the saved files |

## Left out

- HTTPS transport with the client certificate (simp.py:143) is not modelled. The bank is an oracle from the query to the parsed response; `None` stands for any transport or XML parse failure.
- lxml parsing, xpath evaluation and `objectify.deannotate` (simp.py:40, 144, 169, 213, 253-260, 282-307) are library calls. Responses are datatypes holding, per path, the texts the path selects. The normaliser runs over an array of nodes in document order, so namespace declarations and tree structure are not modelled.
- Float arithmetic is not modelled: `int(float(a) * 100)` truncates, and the footer total is the Python repr of a float sum (simp.py:308-309, 316). Both are given functions of the amount texts, `Codec.cents` and `Codec.total`; `Codec.cents` returns the conversion's exception (ValueError for text `float` rejects or a NaN product, OverflowError for an infinite one).
- Base64 and `bank_encoding` decoding (simp.py:256) is the given function `Codec.decode`; a failure in either step is one DecodeError.
- The clock (`datetime.now()`, simp.py:166, 201) is the parameter `Env.clock`. The k-th request gets the k-th clock value, and the message id takes no part in the bank's answer.
- `int()` on the `RptId/EQ` text (simp.py:169-171) is taken as given: the response holds each id already read as an integer, or `None` where `int()` would raise.
- `RawReport.DigitRun`: `\d` is modelled as the ASCII digits only, because Python's Unicode digit classes are out of scope.
- `textwrap.dedent` (simp.py:135) is not modelled: the template is its dedented constant fragments.
- SMTP delivery (simp.py:44-82, 362), file writes, printing, and `logging.info`/`debug` and verbose output (simp.py:145-147, 153-154, 214, 278-279, 328, 339-341, 356-358) are not performed. Each becomes a returned value instead: the printed texts, the `(file name, text)` writes, the composed mail and the error-level log lines.
- Command-line and configuration parsing, `main` and exit codes (simp.py:368-422) are not modelled.
- The commented-out `--force` branch (simp.py:156-158) has no effect in the code and is not modelled.
- Reports.SimpReport.GetReports: it does not capture a `get_reports` that never ends. The loop is bounded by a `fuel` count of further probes, and a walk that runs out ends as `Unfinished`; `Reports.WalkFuelEnough` shows the bound does not change a walk that ends.
- Reports.SimpReport.Get: `Unfinished` is an artefact of the fuel bound. In that case `get`, `save` and `send` deliver nothing; the source would still be looping.
