/** The report handler `SimpReport`: it probes the bank for report ids one
    slot after another, fetches each report in raw or XML form, keeps the
    fetched reports in its `reports` list, and prints, saves or mails those
    that hold transactions. */
module Reports {
  import opened Wrappers
  import opened Text
  import opened Envelope
  import opened Soap
  import opened Transformer
  import opened RawReport

  /** The command-line arguments the handler reads. */
  datatype Args = Args(date: string, simpCode: string, mailTo: string, mailFrom: string)

  /** What lies outside the handler: its arguments, the bank, the library
      conversions and the clock, where `clock(k)` is the message id (epoch
      seconds as text) stamped on the `k`-th request the handler posts. */
  datatype Env = Env(args: Args, bank: Bank, codec: Codec, clock: nat -> string)

  /** One entry of `self.reports`. */
  datatype ReportRecord = ReportRecord(
    simpReport: string,
    date: string,
    transCount: int,
    rptId: int,
    status: bool,
    fileName: string)

  /** An error-level log line: the date, the report id and the `RuleDesc` texts. */
  datatype ErrorLine = ErrorLine(date: string, rptId: int, err: seq<string>)

  /** How `get_reports` ends: with the first record whose status is false, with
      an exception, or not within the number of probes the model allows. */
  datatype Outcome = Finished(last: ReportRecord) | Raised(exc: Exc) | Unfinished

  /** The records `get_reports` appends, the requests it posts, and how it ends. */
  datatype Walked = Walked(records: seq<ReportRecord>, queries: seq<Query>, outcome: Outcome)

  /** A mail `send` hands to the mail server. */
  datatype Mail = Mail(sender: string, to: seq<string>, subject: string, message: string, files: seq<string>)

  function ResolveDate(env: Env, date: Option<string>): (d: string)
  {
    match date
    case None => env.args.date
    case Some(d) => d
  }

  /** The body posted as the `k`-th request. */
  function Posted(env: Env, k: nat, q: Query): (body: string)
  {
    RequestBody(env.clock(k), env.args.simpCode, q.date, q.rptId, q.format)
  }

  /** The bodies of the requests `qs`, posted in order from the first. */
  function Bodies(env: Env, qs: seq<Query>): (bs: seq<string>)
    ensures |bs| == |qs|
  {
    seq(|qs|, k requires 0 <= k < |qs| => Posted(env, k, qs[k]))
  }

  /** The `k`-th posted body carries the `k`-th request: reading its fields
      back gives the message id, the customer code, the date, the report id
      and the format that were asked for, provided none of the inserted texts
      holds a `<` (the template does not escape them). */
  lemma PostedCarriesQuery(env: Env, qs: seq<Query>, k: nat)
    requires k < |qs|
    requires '<' !in env.clock(k) && '<' !in env.args.simpCode && '<' !in qs[k].date
    ensures ParseBody(Bodies(env, qs)[k])
            == Some(Fields(env.clock(k), env.args.simpCode, qs[k].date, IntToString(qs[k].rptId), qs[k].format.Name()))
    ensures ParseInt(IntToString(qs[k].rptId)) == Some(qs[k].rptId)
  {
    ParseRequestBody(env.clock(k), env.args.simpCode, qs[k].date, qs[k].rptId, qs[k].format);
  }

  /** The error line `send_soap_request` logs for a reply carrying `RuleDesc` text. */
  function LogOf(q: Query, r: Result<Reply>): (log: seq<ErrorLine>)
    ensures |log| <= 1
    ensures |log| == 1 <==> r.Ok? && !r.value.status
    ensures |log| == 1 ==> log[0] == ErrorLine(q.date, q.rptId, r.value.response.ruleDesc)
  {
    if r.Ok? && !r.value.status then [ErrorLine(q.date, q.rptId, r.value.response.ruleDesc)] else []
  }

  /** `get_rpt_id` after the probe: the first `RptId/EQ` of a good reply, or the
      probed slot itself, with the reply's status. */
  function RptIdOf(reply: Reply, slot: int): (r: Result<(int, bool)>)
  {
    if !reply.status then Ok((slot, false))
    else if |reply.response.rptIdEq| == 0 then Raise(IndexError)
    else
      match reply.response.rptIdEq[0]
      case None => Raise(ValueError)
      case Some(id) => Ok((id, true))
  }

  /** The request that fetches report `id` in the chosen format. */
  function FetchQuery(d: string, id: int, raw: bool): (q: Query)
  {
    Query(id, d, if raw then RAW else XML)
  }

  function XmlFileName(date: string, id: int): (name: string)
  {
    "ING-SIMP_" + date + "_" + IntToString(id) + ".txt"
  }

  /** The record `get_report` builds from the fetched response. */
  function RecordOf(env: Env, d: string, id: int, status: bool, resp: Response, raw: bool)
    : (r: Result<ReportRecord>)
  {
    if raw then
      var file :- ProcessReportFile(resp, env.codec.decode, env.args.date);
      Ok(ReportRecord(file.0, d, TransCount(file.0), id, status, file.1))
    else
      var text :- if |resp.ntrys| > 0 then SimpOf(resp.ntrys, env.codec) else Ok("");
      Ok(ReportRecord(text, d, |resp.ntrys|, id, status, XmlFileName(env.args.date, id)))
  }

  /** `get_rpt_id` for date `d` and slot `slot`: the report id and the status. */
  function ProbeAt(env: Env, d: string, slot: int): (r: Result<(int, bool)>)
  {
    var probe :- Exchange(env.bank, Query(slot, d, XML));
    RptIdOf(probe, slot)
  }

  /** The second half of `get_report`: fetch report `id` and build its record. */
  function FetchAt(env: Env, d: string, id: int, status: bool, raw: bool): (r: Result<ReportRecord>)
  {
    var fetched :- Exchange(env.bank, FetchQuery(d, id, raw));
    RecordOf(env, d, id, status, fetched.response, raw)
  }

  /** `get_report` for date `d` and slot `slot`: probe, then fetch. */
  function ReportAt(env: Env, d: string, slot: int, raw: bool): (r: Result<ReportRecord>)
  {
    var got :- ProbeAt(env, d, slot);
    FetchAt(env, d, got.0, got.1, raw)
  }

  /** The requests one `get_report` posts: the probe, and the fetch unless the probe raised. */
  function ReportQueries(env: Env, d: string, slot: int, raw: bool): (qs: seq<Query>)
  {
    [Query(slot, d, XML)] +
      match ProbeAt(env, d, slot)
      case Raise(_) => []
      case Ok(got) => [FetchQuery(d, got.0, raw)]
  }

  /** The error lines one `get_report` logs while `reports` is empty. */
  function ReportErrors(env: Env, d: string, slot: int, raw: bool): (es: seq<ErrorLine>)
  {
    var p := Query(slot, d, XML);
    LogOf(p, Exchange(env.bank, p)) +
      match ProbeAt(env, d, slot)
      case Raise(_) => []
      case Ok(got) =>
        var f := FetchQuery(d, got.0, raw);
        LogOf(f, Exchange(env.bank, f))
  }

  /** `get_rpt_id` by the bank's answer to the probe: no answer raises; a
      business error keeps the probed slot with False; otherwise the first
      `RptId/EQ` value with True, IndexError when there is none and
      ValueError when `int()` rejects it. */
  lemma ProbeAnswers(env: Env, d: string, slot: int)
    ensures var a := env.bank(Query(slot, d, XML));
            var got := ProbeAt(env, d, slot);
            && (a.None? ==> got == Raise(TransportError))
            && (a.Some? && |a.value.ruleDesc| > 0 ==> got == Ok((slot, false)))
            && (a.Some? && |a.value.ruleDesc| == 0 && |a.value.rptIdEq| == 0 ==> got == Raise(IndexError))
            && (a.Some? && |a.value.ruleDesc| == 0 && |a.value.rptIdEq| > 0 && a.value.rptIdEq[0].None? ==>
                  got == Raise(ValueError))
            && (a.Some? && |a.value.ruleDesc| == 0 && |a.value.rptIdEq| > 0 && a.value.rptIdEq[0].Some? ==>
                  got == Ok((a.value.rptIdEq[0].value, true)))
  {
  }

  /** `get_report` by the bank's answer to the probe: no answer raises
      TransportError after one request and no error line; a business error
      logs its line and fetches the probed slot itself, whose record keeps
      that slot and status False; an answer without a usable id raises after
      one request and no error line; a usable id is fetched next, and the
      record carries it with status True. */
  lemma ReportByProbe(env: Env, d: string, slot: int, raw: bool)
    ensures var p := Query(slot, d, XML);
            var a := env.bank(p);
            var r := ReportAt(env, d, slot, raw);
            && (a.None? ==>
                  r == Raise(TransportError) && ReportQueries(env, d, slot, raw) == [p]
                  && ReportErrors(env, d, slot, raw) == [])
            && (a.Some? && |a.value.ruleDesc| > 0 ==>
                  && ReportQueries(env, d, slot, raw) == [p, FetchQuery(d, slot, raw)]
                  && |ReportErrors(env, d, slot, raw)| > 0
                  && ReportErrors(env, d, slot, raw)[0] == ErrorLine(d, slot, a.value.ruleDesc)
                  && (r.Ok? ==> r.value.rptId == slot && !r.value.status))
            && (a.Some? && |a.value.ruleDesc| == 0 && (|a.value.rptIdEq| == 0 || a.value.rptIdEq[0].None?) ==>
                  r.Raise? && ReportQueries(env, d, slot, raw) == [p] && ReportErrors(env, d, slot, raw) == [])
            && (a.Some? && |a.value.ruleDesc| == 0 && |a.value.rptIdEq| > 0 && a.value.rptIdEq[0].Some? ==>
                  var f := FetchQuery(d, a.value.rptIdEq[0].value, raw);
                  && ReportQueries(env, d, slot, raw) == [p, f]
                  && ReportErrors(env, d, slot, raw) == LogOf(f, Exchange(env.bank, f))
                  && (r.Ok? ==> r.value.rptId == a.value.rptIdEq[0].value && r.value.status))
  {
    ProbeAnswers(env, d, slot);
    ReportSteps(env, d, slot, raw);
  }

  /** `get_report` in its two halves: what the probe gives decides the
      record, the requests and the error lines. */
  lemma ReportSteps(env: Env, d: string, slot: int, raw: bool)
    ensures var p := Query(slot, d, XML);
            var got := ProbeAt(env, d, slot);
            && (got.Raise? ==>
                  && ReportAt(env, d, slot, raw) == Raise(got.exc)
                  && ReportQueries(env, d, slot, raw) == [p]
                  && ReportErrors(env, d, slot, raw) == LogOf(p, Exchange(env.bank, p)))
            && (got.Ok? ==>
                  var f := FetchQuery(d, got.value.0, raw);
                  && ReportAt(env, d, slot, raw) == FetchAt(env, d, got.value.0, got.value.1, raw)
                  && ReportQueries(env, d, slot, raw) == [p, f]
                  && ReportErrors(env, d, slot, raw) == LogOf(p, Exchange(env.bank, p)) + LogOf(f, Exchange(env.bank, f)))
  {
    if ProbeAt(env, d, slot).Raise? {
      ProbeRaised(env, d, slot, raw);
    } else {
      ProbeAnswered(env, d, slot, raw);
    }
  }

  /** A probe that raises ends `get_report` after one request. */
  lemma ProbeRaised(env: Env, d: string, slot: int, raw: bool)
    requires ProbeAt(env, d, slot).Raise?
    ensures var p := Query(slot, d, XML);
            && ReportAt(env, d, slot, raw) == Raise(ProbeAt(env, d, slot).exc)
            && ReportQueries(env, d, slot, raw) == [p]
            && ReportErrors(env, d, slot, raw) == LogOf(p, Exchange(env.bank, p))
  {
  }

  /** A probe that answers is followed by the fetch of the id it names. */
  lemma ProbeAnswered(env: Env, d: string, slot: int, raw: bool)
    requires ProbeAt(env, d, slot).Ok?
    ensures var p := Query(slot, d, XML);
            var got := ProbeAt(env, d, slot).value;
            var f := FetchQuery(d, got.0, raw);
            && ReportAt(env, d, slot, raw) == FetchAt(env, d, got.0, got.1, raw)
            && ReportQueries(env, d, slot, raw) == [p, f]
            && ReportErrors(env, d, slot, raw) == LogOf(p, Exchange(env.bank, p)) + LogOf(f, Exchange(env.bank, f))
  {
  }

  /** One `get_report`, by the slot it is asked for: the record it returns
      (or what it raises) and the requests it posts. */
  datatype Stepper = Stepper(report: int -> Result<ReportRecord>, requests: int -> seq<Query>)

  /** `get_report` for date `d` in the chosen form. */
  function Steps(env: Env, d: string, raw: bool): (s: Stepper)
  {
    Stepper(slot => ReportAt(env, d, slot, raw), slot => ReportQueries(env, d, slot, raw))
  }

  /** The loop of `get_reports` from slot `slot`, allowing `fuel` further probes
      after the first. */
  function Walk(s: Stepper, slot: int, fuel: nat): (w: Walked)
    decreases fuel, 1
  {
    match s.report(slot)
    case Raise(e) => Walked([], s.requests(slot), Raised(e))
    case Ok(rec) =>
      var rest := Continue(s, rec, fuel);
      Walked([rec] + rest.records, s.requests(slot) + rest.queries, rest.outcome)
  }

  /** What follows a record in the walk: nothing after a false status, nothing
      more once the fuel is spent, otherwise the walk from the next slot. */
  function Continue(s: Stepper, rec: ReportRecord, fuel: nat): (w: Walked)
    decreases fuel, 0
  {
    if !rec.status then Walked([], [], Finished(rec))
    else if fuel == 0 then Walked([], [], Unfinished)
    else Walk(s, rec.rptId + 1, fuel - 1)
  }

  /** Each `get_report` posts its probe for the slot first, then, unless the
      probe raised, the fetch for the id the record carries. */
  ghost predicate Paired(s: Stepper, d: string, raw: bool)
  {
    forall slot ::
      && |s.requests(slot)| > 0 && s.requests(slot)[0] == Query(slot, d, XML)
      && |s.requests(slot)| <= 2
      && (s.report(slot).Ok? ==> s.requests(slot) == [Query(slot, d, XML), FetchQuery(d, s.report(slot).value.rptId, raw)])
  }

  /** The stepper `s` is `get_report` for date `d` in the chosen form. */
  ghost predicate Runs(s: Stepper, env: Env, d: string, raw: bool)
  {
    forall slot {:trigger ReportAt(env, d, slot, raw)} ::
      s.report(slot) == ReportAt(env, d, slot, raw) && s.requests(slot) == ReportQueries(env, d, slot, raw)
  }

  lemma StepsRun(env: Env, d: string, raw: bool)
    ensures Runs(Steps(env, d, raw), env, d, raw)
  {
  }

  lemma StepsPaired(env: Env, d: string, raw: bool)
    ensures Paired(Steps(env, d, raw), d, raw)
  {
    forall slot: int
      ensures var s := Steps(env, d, raw);
              && |s.requests(slot)| > 0 && s.requests(slot)[0] == Query(slot, d, XML)
              && |s.requests(slot)| <= 2
              && (s.report(slot).Ok? ==> s.requests(slot) == [Query(slot, d, XML), FetchQuery(d, s.report(slot).value.rptId, raw)])
    {
      ReportSteps(env, d, slot, raw);
      ReportFacts(env, d, slot, raw);
    }
  }

  /** What a record `get_report` returns says about the replies behind it: the
      status is that of the probe, a record with status false keeps the probed
      slot as its id, the record carries the date asked for, and the count is
      the number of `Ntry` nodes of the XML reply or, in raw form, the count
      the footer pattern reads from the text of the report file, whose text
      and name the record carries. */
  lemma ReportFacts(env: Env, d: string, slot: int, raw: bool)
    ensures var r := ReportAt(env, d, slot, raw);
            var probe := Exchange(env.bank, Query(slot, d, XML));
            r.Ok? ==>
              && probe.Ok?
              && (r.value.status <==> |probe.value.response.ruleDesc| == 0)
              && (!r.value.status ==> r.value.rptId == slot)
              && (r.value.status ==>
                    |probe.value.response.rptIdEq| > 0 && probe.value.response.rptIdEq[0] == Some(r.value.rptId))
              && r.value.date == d
              && (raw ==>
                    var f := Exchange(env.bank, FetchQuery(d, r.value.rptId, raw));
                    && f.Ok?
                    && ProcessReportFile(f.value.response, env.codec.decode, env.args.date)
                       == Ok((r.value.simpReport, r.value.fileName))
                    && r.value.transCount == TransCount(r.value.simpReport))
              && (!raw ==>
                    var f := Exchange(env.bank, FetchQuery(d, r.value.rptId, raw));
                    && f.Ok? && r.value.transCount == |f.value.response.ntrys|
                    && r.value.fileName == XmlFileName(env.args.date, r.value.rptId)
                    && (r.value.transCount == 0 ==> r.value.simpReport == "")
                    && (r.value.transCount > 0 ==>
                          r.value.simpReport == SimpOf(f.value.response.ntrys, env.codec).value))
  {
  }

  /** Every record of the walk but the last has status true; a finished walk
      ends with the record whose status is false, an unfinished one has spent
      its fuel on records with status true, and in a walk that raised every
      record has status true. */
  lemma {:induction false} WalkShape(s: Stepper, slot: int, fuel: nat)
    decreases fuel
    ensures var w := Walk(s, slot, fuel);
            && |w.records| <= fuel + 1
            && (forall i | 0 <= i < |w.records| - 1 :: w.records[i].status)
            && (w.outcome.Finished? ==>
                  |w.records| > 0 && w.records[|w.records| - 1] == w.outcome.last && !w.outcome.last.status)
            && (w.outcome.Unfinished? ==> |w.records| == fuel + 1 && w.records[fuel].status)
            && (w.outcome.Raised? ==> forall i | 0 <= i < |w.records| :: w.records[i].status)
  {
    var r := s.report(slot);
    if r.Ok? && r.value.status && fuel > 0 {
      var rest := Walk(s, r.value.rptId + 1, fuel - 1);
      WalkShape(s, r.value.rptId + 1, fuel - 1);
      var w := Walk(s, slot, fuel);
      assert w.records == [r.value] + rest.records;
      assert forall i | 1 <= i < |w.records| :: w.records[i] == rest.records[i - 1];
    }
  }

  /** The requests of the walk come in pairs, a probe and a fetch: the first
      probe asks for `slot`, each fetch asks for the id its probe answered,
      each record is what `get_report` returns at its probed slot, and the
      probe after a record asks for the slot after that record's id. A walk
      that raised ends with the one or two requests of the step that raised. */
  lemma {:induction false} WalkQueries(s: Stepper, d: string, raw: bool, slot: int, fuel: nat)
    requires Paired(s, d, raw)
    decreases fuel
    ensures var w := Walk(s, slot, fuel);
            && |w.queries| > 0 && w.queries[0] == Query(slot, d, XML)
            && (!w.outcome.Raised? ==> |w.queries| == 2 * |w.records|)
            && (w.outcome.Raised? ==> 2 * |w.records| < |w.queries| <= 2 * |w.records| + 2)
            && (forall k | 0 <= k < |w.records| ::
                  && w.queries[2 * k + 1] == FetchQuery(d, w.records[k].rptId, raw)
                  && s.report(w.queries[2 * k].rptId) == Ok(w.records[k]))
            && (forall k | 0 <= k < |w.records| && 2 * k + 2 < |w.queries| ::
                  w.queries[2 * k + 2] == Query(w.records[k].rptId + 1, d, XML))
  {
    var r := s.report(slot);
    var qs := s.requests(slot);
    var w := Walk(s, slot, fuel);
    if r.Ok? {
      assert qs == [Query(slot, d, XML), FetchQuery(d, r.value.rptId, raw)];
      var c := Continue(s, r.value, fuel);
      assert w == Walked([r.value] + c.records, qs + c.queries, c.outcome);
      if r.value.status && fuel > 0 {
        var rest := Walk(s, r.value.rptId + 1, fuel - 1);
        assert c == rest;
        WalkQueries(s, d, raw, r.value.rptId + 1, fuel - 1);
        QueriesStep(s, d, raw, w, r.value, qs, rest);
      }
    }
  }

  /** The pairing facts of `WalkQueries` carry over from the rest of a walk
      to the walk with one more record and its two requests in front. */
  lemma QueriesStep(s: Stepper, d: string, raw: bool, w: Walked, rec: ReportRecord, qs: seq<Query>, rest: Walked)
    requires |qs| == 2 && qs[1] == FetchQuery(d, rec.rptId, raw) && s.report(qs[0].rptId) == Ok(rec)
    requires |rest.queries| > 0 && rest.queries[0] == Query(rec.rptId + 1, d, XML)
    requires 2 * |rest.records| <= |rest.queries|
    requires forall k | 0 <= k < |rest.records| ::
               && rest.queries[2 * k + 1] == FetchQuery(d, rest.records[k].rptId, raw)
               && s.report(rest.queries[2 * k].rptId) == Ok(rest.records[k])
    requires forall k | 0 <= k < |rest.records| && 2 * k + 2 < |rest.queries| ::
               rest.queries[2 * k + 2] == Query(rest.records[k].rptId + 1, d, XML)
    requires w.records == [rec] + rest.records && w.queries == qs + rest.queries
    ensures forall k | 0 <= k < |w.records| ::
              && w.queries[2 * k + 1] == FetchQuery(d, w.records[k].rptId, raw)
              && s.report(w.queries[2 * k].rptId) == Ok(w.records[k])
    ensures forall k | 0 <= k < |w.records| && 2 * k + 2 < |w.queries| ::
              w.queries[2 * k + 2] == Query(w.records[k].rptId + 1, d, XML)
  {
    QueriesShift(w, rec, qs, rest);
  }

  /** Index bookkeeping for one more record and its two requests in front of a walk. */
  lemma QueriesShift(w: Walked, rec: ReportRecord, qs: seq<Query>, rest: Walked)
    requires |qs| == 2 && 2 * |rest.records| <= |rest.queries|
    requires w.records == [rec] + rest.records && w.queries == qs + rest.queries
    ensures forall k | 1 <= k < |w.records| ::
              && w.records[k] == rest.records[k - 1]
              && w.queries[2 * k] == rest.queries[2 * (k - 1)]
              && w.queries[2 * k + 1] == rest.queries[2 * (k - 1) + 1]
              && (2 * k + 2 < |w.queries| ==> w.queries[2 * k + 2] == rest.queries[2 * (k - 1) + 2])
    ensures w.records[0] == rec && w.queries[0] == qs[0] && w.queries[1] == qs[1]
    ensures 2 < |w.queries| ==> w.queries[2] == rest.queries[0]
  {
  }

  /** The fuel bound does not change a walk that finished or raised: more fuel
      gives the same records, requests and outcome. */
  lemma {:induction false} WalkFuelEnough(s: Stepper, slot: int, fuel: nat, more: nat)
    requires fuel <= more
    requires !Walk(s, slot, fuel).outcome.Unfinished?
    ensures Walk(s, slot, more) == Walk(s, slot, fuel)
    decreases fuel
  {
    var r := s.report(slot);
    if r.Ok? && r.value.status {
      WalkFuelEnough(s, r.value.rptId + 1, fuel - 1, more - 1);
    }
  }

  /** The walk `get_reports` makes for date `d`: it starts by probing slot 0;
      every record is what `get_report` returns at the slot its probe asked
      for, fetched by the id the probe answered; every record but the last has
      status true, and the probe after a record asks for the slot after its id. */
  lemma Pagination(env: Env, d: string, raw: bool, fuel: nat)
    ensures var w := Walk(Steps(env, d, raw), 0, fuel);
            && |w.queries| > 0 && w.queries[0] == Query(0, d, XML)
            && 2 * |w.records| <= |w.queries|
            && (forall k | 0 <= k < |w.records| ::
                  && w.queries[2 * k + 1] == FetchQuery(d, w.records[k].rptId, raw)
                  && ReportAt(env, d, w.queries[2 * k].rptId, raw) == Ok(w.records[k]))
            && (forall k | 0 <= k < |w.records| && 2 * k + 2 < |w.queries| ::
                  w.records[k].status && w.queries[2 * k + 2] == Query(w.records[k].rptId + 1, d, XML))
            && (w.outcome.Finished? ==> |w.records| > 0 && !w.records[|w.records| - 1].status)
  {
    StepsRun(env, d, raw);
    StepsPaired(env, d, raw);
    WalkPagination(Steps(env, d, raw), env, d, raw, fuel);
  }

  /** `Pagination` for any stepper that runs `get_report` and pairs its requests. */
  lemma WalkPagination(s: Stepper, env: Env, d: string, raw: bool, fuel: nat)
    requires Runs(s, env, d, raw) && Paired(s, d, raw)
    ensures var w := Walk(s, 0, fuel);
            && |w.queries| > 0 && w.queries[0] == Query(0, d, XML)
            && 2 * |w.records| <= |w.queries|
            && (forall k | 0 <= k < |w.records| ::
                  && w.queries[2 * k + 1] == FetchQuery(d, w.records[k].rptId, raw)
                  && ReportAt(env, d, w.queries[2 * k].rptId, raw) == Ok(w.records[k]))
            && (forall k | 0 <= k < |w.records| && 2 * k + 2 < |w.queries| ::
                  w.records[k].status && w.queries[2 * k + 2] == Query(w.records[k].rptId + 1, d, XML))
            && (w.outcome.Finished? ==> |w.records| > 0 && !w.records[|w.records| - 1].status)
  {
    WalkQueries(s, d, raw, 0, fuel);
    WalkShape(s, 0, fuel);
    var w := Walk(s, 0, fuel);
    forall k | 0 <= k < |w.records|
      ensures ReportAt(env, d, w.queries[2 * k].rptId, raw) == Ok(w.records[k])
    {
      assert s.report(w.queries[2 * k].rptId) == Ok(w.records[k]);
    }
  }

  /** The walk `c` is `done` and `trail` followed by the walk `ahead`. */
  predicate Splits(c: Walked, done: seq<ReportRecord>, trail: seq<Query>, ahead: Walked)
  {
    c.records == done + ahead.records && c.queries == trail + ahead.queries && c.outcome == ahead.outcome
  }

  /** Regrouping a concatenation, stated once so that the methods over the
      walk need not rediscover it among the walk's unfoldings. */
  lemma Regroup<T>(a: seq<T>, b: seq<T>, c: seq<T>)
    ensures a + (b + c) == (a + b) + c
  {
  }

  lemma AppendNothing<T>(a: seq<T>)
    ensures a + [] == a && [] + a == a
  {
  }

  /** The records `get`, `save` and `send` deliver: status true and at least one transaction. */
  predicate Delivered(r: ReportRecord)
  {
    r.status && r.transCount > 0
  }

  /** The delivered records of `rs`, in their order. */
  function Selected(rs: seq<ReportRecord>): (sel: seq<ReportRecord>)
    ensures |sel| <= |rs|
    ensures forall x :: x in sel <==> x in rs && Delivered(x)
  {
    if rs == [] then []
    else
      var init := rs[..|rs| - 1];
      var last := rs[|rs| - 1];
      assert rs == init + [last];
      Selected(init) + (if Delivered(last) then [last] else [])
  }

  /** Selecting from two lists one after the other selects from their concatenation. */
  lemma {:induction false} SelectedAppend(a: seq<ReportRecord>, b: seq<ReportRecord>)
    ensures Selected(a + b) == Selected(a) + Selected(b)
    decreases |b|
  {
    if b == [] {
      assert a + b == a;
    } else {
      var init := b[..|b| - 1];
      assert (a + b)[..|a + b| - 1] == a + init;
      assert (a + b)[|a + b| - 1] == b[|b| - 1];
      SelectedAppend(a, init);
    }
  }

  function Texts(rs: seq<ReportRecord>): (ts: seq<string>)
    ensures |ts| == |rs| && forall i | 0 <= i < |rs| :: ts[i] == rs[i].simpReport
  {
    if rs == [] then [] else Texts(rs[..|rs| - 1]) + [rs[|rs| - 1].simpReport]
  }

  function Writes(rs: seq<ReportRecord>): (ws: seq<(string, string)>)
    ensures |ws| == |rs| && forall i | 0 <= i < |rs| :: ws[i] == (rs[i].fileName, rs[i].simpReport)
  {
    if rs == [] then [] else Writes(rs[..|rs| - 1]) + [(rs[|rs| - 1].fileName, rs[|rs| - 1].simpReport)]
  }

  function FileNames(rs: seq<ReportRecord>): (fs: seq<string>)
    ensures |fs| == |rs| && forall i | 0 <= i < |rs| :: fs[i] == rs[i].fileName
  {
    if rs == [] then [] else FileNames(rs[..|rs| - 1]) + [rs[|rs| - 1].fileName]
  }

  /** One more record of the list: it is kept exactly when it is delivered. */
  lemma SelectedStep(rs: seq<ReportRecord>, i: nat)
    requires i < |rs|
    ensures Selected(rs[..i + 1]) == Selected(rs[..i]) + (if Delivered(rs[i]) then [rs[i]] else [])
  {
    var upto := rs[..i + 1];
    assert upto[..|upto| - 1] == rs[..i];
  }

  /** The outputs of one more kept record come after those of the others. */
  lemma OutputsSnoc(sel: seq<ReportRecord>, r: ReportRecord)
    ensures Texts(sel + [r]) == Texts(sel) + [r.simpReport]
    ensures Writes(sel + [r]) == Writes(sel) + [(r.fileName, r.simpReport)]
    ensures FileNames(sel + [r]) == FileNames(sel) + [r.fileName]
  {
    assert (sel + [r])[..|sel|] == sel;
  }

  /** The mail `send` composes for the saved files. */
  function MailOf(args: Args, files: seq<string>): (m: Mail)
  {
    Mail(args.mailFrom, [args.mailTo, args.mailFrom],
         "ING SIMP report at " + args.date,
         "Dear Colleague, please find attached SIMP report generated for: " + args.date,
         files)
  }

  class SimpReport {
    const env: Env
    var reports: seq<ReportRecord>
    /** The requests posted so far, in order; the body of the `k`-th one is
        `Bodies(env, sent)[k]`. */
    var sent: seq<Query>
    /** The error-level lines logged so far. */
    var errorLog: seq<ErrorLine>

    constructor(env: Env)
      ensures this.env == env && reports == [] && sent == [] && errorLog == []
    {
      this.env := env;
      reports := [];
      sent := [];
      errorLog := [];
    }

    /** `send_soap_request`: posts the envelope, reads the reply's `RuleDesc`,
        and logs an error line when there is one and no report is stored yet. */
    method SendSoapRequest(rptId: int, date: string, format: Format) returns (r: Result<Reply>)
      modifies this
      ensures r == Exchange(env.bank, Query(rptId, date, format))
      ensures sent == old(sent) + [Query(rptId, date, format)]
      ensures reports == old(reports)
      ensures reports == [] ==> errorLog == old(errorLog) + LogOf(Query(rptId, date, format), r)
      ensures reports != [] ==> errorLog == old(errorLog)
    {
      var q := Query(rptId, date, format);
      sent := sent + [q];
      var answer := env.bank(q);
      if answer.None? {
        return Raise(TransportError);
      }
      var err := answer.value.ruleDesc;
      var status := true;
      if |err| > 0 {
        if |reports| == 0 {
          errorLog := errorLog + [ErrorLine(date, rptId, err)];
        }
        status := false;
      }
      r := Ok(Reply(answer.value, status));
    }

    /** `get_rpt_id`: probes slot `rptId` in XML form. */
    method GetRptId(date: Option<string>, rptId: int) returns (r: Result<(int, bool)>)
      modifies this
      ensures var q := Query(rptId, ResolveDate(env, date), XML);
              && sent == old(sent) + [q]
              && r == ProbeAt(env, ResolveDate(env, date), rptId)
              && (reports == [] ==> errorLog == old(errorLog) + LogOf(q, Exchange(env.bank, q)))
              && (reports != [] ==> errorLog == old(errorLog))
      ensures reports == old(reports)
      ensures var a := env.bank(Query(rptId, ResolveDate(env, date), XML));
              && (a.None? ==> r == Raise(TransportError))
              && (a.Some? && |a.value.ruleDesc| > 0 ==> r == Ok((rptId, false)))
              && (a.Some? && |a.value.ruleDesc| == 0 && |a.value.rptIdEq| == 0 ==> r == Raise(IndexError))
              && (a.Some? && |a.value.ruleDesc| == 0 && |a.value.rptIdEq| > 0 && a.value.rptIdEq[0].None? ==>
                    r == Raise(ValueError))
              && (a.Some? && |a.value.ruleDesc| == 0 && |a.value.rptIdEq| > 0 && a.value.rptIdEq[0].Some? ==>
                    r == Ok((a.value.rptIdEq[0].value, true)))
    {
      var d := ResolveDate(env, date);
      var reply :- SendSoapRequest(rptId, d, XML);
      var id := rptId;
      if reply.status {
        if |reply.response.rptIdEq| == 0 {
          return Raise(IndexError);
        }
        var text := reply.response.rptIdEq[0];
        if text.None? {
          return Raise(ValueError);
        }
        id := text.value;
      }
      r := Ok((id, reply.status));
    }

    /** `get_report`: probes the slot, fetches the report the probe names, and
        appends the record. */
    method GetReport(date: Option<string>, rptId: int, raw: bool) returns (r: Result<ReportRecord>)
      modifies this
      ensures r == ReportAt(env, ResolveDate(env, date), rptId, raw)
      ensures reports == old(reports) + (if r.Ok? then [r.value] else [])
      ensures sent == old(sent) + ReportQueries(env, ResolveDate(env, date), rptId, raw)
      ensures old(reports) == [] ==> errorLog == old(errorLog) + ReportErrors(env, ResolveDate(env, date), rptId, raw)
      ensures old(reports) != [] ==> errorLog == old(errorLog)
    {
      var d := ResolveDate(env, date);
      var got := GetRptId(Some(d), rptId);
      if got.Raise? {
        ProbeRaised(env, d, rptId, raw);
        return Raise(got.exc);
      }
      ProbeAnswered(env, d, rptId, raw);
      r := FetchReport(d, got.value.0, got.value.1, raw);
      if r.Ok? {
        reports := reports + [r.value];
      }
    }

    /** The fetch half of `get_report`, before the record is appended. */
    method FetchReport(d: string, id: int, status: bool, raw: bool) returns (r: Result<ReportRecord>)
      modifies this
      ensures r == FetchAt(env, d, id, status, raw)
      ensures reports == old(reports)
      ensures var f := FetchQuery(d, id, raw);
              && sent == old(sent) + [f]
              && (reports == [] ==> errorLog == old(errorLog) + LogOf(f, Exchange(env.bank, f)))
              && (reports != [] ==> errorLog == old(errorLog))
    {
      var reply := SendSoapRequest(id, d, if raw then RAW else XML);
      if reply.Raise? {
        return Raise(reply.exc);
      }
      var resp := reply.value.response;
      if raw {
        var file := ProcessReportFile(resp, env.codec.decode, env.args.date);
        if file.Raise? {
          return Raise(file.exc);
        }
        var text := file.value.0;
        r := Ok(ReportRecord(text, d, TransCount(text), id, status, file.value.1));
      } else {
        var text := "";
        if |resp.ntrys| > 0 {
          var t := NtrysToSimp(resp.ntrys, env.codec);
          if t.Raise? {
            return Raise(t.exc);
          }
          text := t.value;
        }
        r := Ok(ReportRecord(text, d, |resp.ntrys|, id, status, XmlFileName(env.args.date, id)));
      }
    }

    /** `get_reports`: resets `reports`, then fetches slot 0 and each next slot
        while the last record's status is true; `fuel` bounds the number of
        further probes the model makes. */
    method GetReports(date: Option<string>, raw: bool, fuel: nat) returns (o: Outcome)
      modifies this
      ensures var w := Walk(Steps(env, ResolveDate(env, date), raw), 0, fuel);
              && reports == w.records
              && sent == old(sent) + w.queries
              && o == w.outcome
      ensures errorLog == old(errorLog) + ReportErrors(env, ResolveDate(env, date), 0, raw)
    {
      ghost var s := Steps(env, ResolveDate(env, date), raw);
      StepsRun(env, ResolveDate(env, date), raw);
      reports := [];
      ghost var sent0 := sent;
      var first := FetchFirst(date, raw, fuel, s);
      if first.Raise? {
        return Raised(first.exc);
      }
      o := FollowChain(date, first.value, raw, fuel, s);
      Regroup(sent0, s.requests(0), Continue(s, first.value, fuel).queries);
    }

    /** The loop of `get_reports` after a record: fetches the next slot while
        the last record's status is true, as the rest of the walk says. */
    method FollowChain(date: Option<string>, report0: ReportRecord, raw: bool, fuel: nat, ghost s: Stepper)
      returns (o: Outcome)
      requires Runs(s, env, ResolveDate(env, date), raw)
      requires reports != [] && report0 == reports[|reports| - 1]
      modifies this
      ensures var c := Continue(s, report0, fuel);
              && reports == old(reports) + c.records
              && sent == old(sent) + c.queries
              && o == c.outcome
      ensures errorLog == old(errorLog)
    {
      ghost var c := Continue(s, report0, fuel);
      var report := report0;
      var left := fuel;
      ghost var done: seq<ReportRecord> := [];
      ghost var trail: seq<Query> := [];
      AppendNothing(reports);
      AppendNothing(sent);
      AppendNothing(c.records);
      AppendNothing(c.queries);
      while report.status && left > 0
        invariant reports != [] && report == reports[|reports| - 1]
        invariant reports == old(reports) + done
        invariant sent == old(sent) + trail
        invariant errorLog == old(errorLog)
        invariant Splits(c, done, trail, Continue(s, report, left))
        decreases left
      {
        left := left - 1;
        ghost var qs := s.requests(report.rptId + 1);
        var next := FetchNext(date, report, raw, left, s, c, old(reports), done, old(sent), trail);
        if next.Raise? {
          return Raised(next.exc);
        }
        report := next.value;
        done := done + [report];
        trail := trail + qs;
      }
      AppendNothing(done);
      AppendNothing(trail);
      o := if report.status then Unfinished else Finished(report);
    }

    /** The first `get_report` of `get_reports`, described by the walk it starts. */
    method FetchFirst(date: Option<string>, raw: bool, fuel: nat, ghost s: Stepper)
      returns (first: Result<ReportRecord>)
      requires Runs(s, env, ResolveDate(env, date), raw)
      requires reports == []
      modifies this
      ensures var w := Walk(s, 0, fuel);
              && reports == (if first.Ok? then [first.value] else [])
              && sent == old(sent) + s.requests(0)
              && errorLog == old(errorLog) + ReportErrors(env, ResolveDate(env, date), 0, raw)
              && (first.Raise? ==> w == Walked([], s.requests(0), Raised(first.exc)))
              && (first.Ok? ==>
                    var rest := Continue(s, first.value, fuel);
                    w == Walked([first.value] + rest.records, s.requests(0) + rest.queries, rest.outcome))
    {
      first := GetReport(date, 0, raw);
      assert first == s.report(0);
    }

    /** One turn of the `get_reports` loop: `get_report` at the slot after
        `report`, described by what it does to the walk `c` the loop follows,
        of which `done` and `trail` are behind. */
    method FetchNext(date: Option<string>, report: ReportRecord, raw: bool, left: nat, ghost s: Stepper,
                     ghost c: Walked, ghost reports0: seq<ReportRecord>, ghost done: seq<ReportRecord>,
                     ghost sent0: seq<Query>, ghost trail: seq<Query>)
      returns (next: Result<ReportRecord>)
      requires Runs(s, env, ResolveDate(env, date), raw)
      requires report.status && reports != [] && report == reports[|reports| - 1]
      requires reports == reports0 + done && sent == sent0 + trail
      requires Splits(c, done, trail, Continue(s, report, left + 1))
      modifies this
      ensures var qs := s.requests(report.rptId + 1);
              && errorLog == old(errorLog)
              && (next.Raise? ==>
                    && reports == reports0 + c.records
                    && sent == sent0 + c.queries
                    && Raised(next.exc) == c.outcome)
              && (next.Ok? ==>
                    && reports != [] && next.value == reports[|reports| - 1]
                    && reports == reports0 + (done + [next.value])
                    && sent == sent0 + (trail + qs)
                    && Splits(c, done + [next.value], trail + qs, Continue(s, next.value, left)))
    {
      ghost var qs := s.requests(report.rptId + 1);
      ghost var ahead := Continue(s, report, left + 1);
      assert ahead == Walk(s, report.rptId + 1, left);
      next := GetReport(date, report.rptId + 1, raw);
      assert next == s.report(report.rptId + 1);
      Regroup(sent0, trail, qs);
      if next.Raise? {
        assert ahead == Walked([], qs, Raised(next.exc));
        AppendNothing(done);
      } else {
        ghost var rest := Continue(s, next.value, left);
        assert ahead == Walked([next.value] + rest.records, qs + rest.queries, rest.outcome);
        Regroup(reports0, done, [next.value]);
        Regroup(done, [next.value], rest.records);
        Regroup(trail, qs, rest.queries);
      }
    }

    /** `get`: fetches the reports of the argument date in raw form and prints
        the delivered ones. */
    method Get(fuel: nat) returns (o: Outcome, printed: seq<string>)
      modifies this
      ensures var w := Walk(Steps(env, env.args.date, true), 0, fuel);
              && reports == w.records && o == w.outcome && sent == old(sent) + w.queries
      ensures errorLog == old(errorLog) + ReportErrors(env, env.args.date, 0, true)
      ensures o.Finished? ==> printed == Texts(Selected(reports))
      ensures !o.Finished? ==> printed == []
    {
      o := GetReports(Some(env.args.date), true, fuel);
      printed := [];
      if o.Finished? {
        printed := PrintDelivered(reports);
      }
    }

    /** `save`: fetches as `get` does and writes each delivered report to its file. */
    method Save(fuel: nat) returns (o: Outcome, written: seq<(string, string)>)
      modifies this
      ensures var w := Walk(Steps(env, env.args.date, true), 0, fuel);
              && reports == w.records && o == w.outcome && sent == old(sent) + w.queries
      ensures errorLog == old(errorLog) + ReportErrors(env, env.args.date, 0, true)
      ensures o.Finished? ==> written == Writes(Selected(reports))
      ensures !o.Finished? ==> written == []
    {
      o := GetReports(Some(env.args.date), true, fuel);
      written := [];
      if o.Finished? {
        var files;
        written, files := SaveDelivered(reports);
      }
    }

    /** `send`: saves as `save` does and mails the saved files, when there are any. */
    method Send(fuel: nat) returns (o: Outcome, written: seq<(string, string)>, mail: Option<Mail>)
      modifies this
      ensures var w := Walk(Steps(env, env.args.date, true), 0, fuel);
              && reports == w.records && o == w.outcome && sent == old(sent) + w.queries
      ensures errorLog == old(errorLog) + ReportErrors(env, env.args.date, 0, true)
      ensures o.Finished? ==> written == Writes(Selected(reports))
      ensures o.Finished? && |Selected(reports)| > 0 ==> mail == Some(MailOf(env.args, FileNames(Selected(reports))))
      ensures o.Finished? && |Selected(reports)| == 0 ==> mail == None
      ensures !o.Finished? ==> written == [] && mail == None
    {
      o := GetReports(Some(env.args.date), true, fuel);
      written := [];
      mail := None;
      if o.Finished? {
        var files;
        written, files := SaveDelivered(reports);
        if |files| > 0 {
          mail := Some(MailOf(env.args, files));
        }
      }
    }
  }

  /** The printing loop of `get`: the texts of the delivered records, in order. */
  method PrintDelivered(rs: seq<ReportRecord>) returns (printed: seq<string>)
    ensures printed == Texts(Selected(rs))
  {
    printed := [];
    var i := 0;
    while i < |rs|
      invariant 0 <= i <= |rs|
      invariant printed == Texts(Selected(rs[..i]))
    {
      SelectedStep(rs, i);
      if rs[i].status && rs[i].transCount > 0 {
        OutputsSnoc(Selected(rs[..i]), rs[i]);
        printed := printed + [rs[i].simpReport];
      }
      i := i + 1;
    }
    assert rs[..i] == rs;
  }

  /** The saving loop of `save` and `send`: a file write per delivered record,
      in order, and the names of the files written. */
  method SaveDelivered(rs: seq<ReportRecord>) returns (written: seq<(string, string)>, files: seq<string>)
    ensures written == Writes(Selected(rs))
    ensures files == FileNames(Selected(rs))
  {
    written := [];
    files := [];
    var i := 0;
    while i < |rs|
      invariant 0 <= i <= |rs|
      invariant written == Writes(Selected(rs[..i]))
      invariant files == FileNames(Selected(rs[..i]))
    {
      SelectedStep(rs, i);
      if rs[i].status && rs[i].transCount > 0 {
        OutputsSnoc(Selected(rs[..i]), rs[i]);
        var fn := rs[i].fileName;
        written := written + [(fn, rs[i].simpReport)];
        files := files + [fn];
      }
      i := i + 1;
    }
    assert rs[..i] == rs;
  }
}
