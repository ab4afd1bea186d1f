/**
 * The request layer of the client: one function per endpoint method, each
 * of which checks its arguments, builds one request, sends it through the
 * throttle gate and unwraps the decoded response body. The network is the
 * client's `transport` function; `requests`, HTTP and `json.loads` are not
 * modelled.
 */
module Endpoints {
  import opened Common
  import opened Values
  import Throttle
  import opened Urls

  const BotsEndpoint: string := "bots/"
  const ReportsEndpoint: string := "bots/reports/"
  const VariablesEndpoint: string := "bots/variables/"

  datatype Verb = Get | Put

  /** The query string: only `get_bot` sends one. */
  datatype Query = NoQuery | BotQuery(includeDetails: bool, statuses: seq<string>)

  /** The body: the empty form `{}`, or a JSON document. */
  datatype Payload = EmptyForm | JsonText(doc: Json)

  /** The headers are fixed except for the bearer token, kept as `authorization`. */
  datatype Request = Request(verb: Verb, target: Target, query: Query, authorization: string, payload: Payload)

  /** A response after its text has been decoded. */
  datatype Response = Response(ok: bool, reason: string, body: Json)

  datatype ApiError =
    | InvalidToken                      // `format_response` on an unauthorized response
    | ValueError(guard: Guard)          // an argument guard, before any request
    | Malformed(raised: Raised)         // a body of the wrong shape for `in` or `[...]`
    | SleepFailed                       // `time.sleep` refusing a negative delay
    | DictChangedDuringIteration        // the payload loop of `update_bot_report`

  /** Which argument guard raised, with the arguments its message reports. */
  datatype Guard =
    | NoReportNumber(reportNumber: string)
    | NoVariableArguments(variableNumber: string, name: string, value: string)

  /**
   * What one endpoint call did: the gate's steps, the requests sent, the
   * warning issued for a failed response (carrying its 'message'), and
   * the value returned or the error raised.
   */
  datatype Outcome = Outcome(
    steps: seq<Throttle.Step>,
    sent: seq<Request>,
    warning: Option<Json>,
    result: Result<Json, ApiError>)

  /** The client: its token, its throttle and the network. */
  datatype Client = Client(token: string, throttle: Throttle.Throttle, transport: Request -> Response)

  datatype Formatted = Formatted(warning: Option<Json>, result: Result<Json, ApiError>)

  function Authorization(c: Client): string {
    "Bearer " + c.token
  }

  /** `body['data'] if 'data' in body else body`. */
  function Unwrap(body: Json): Result<Json, ApiError> {
    match HasKey(body, "data")
    case Err(e) => Err(Malformed(e))
    case Ok(present) =>
      if present then
        match Item(body, "data")
        case Ok(v) => Ok(v)
        case Err(e) => Err(Malformed(e))
      else Ok(body)
  }

  /** The 'message' that the warning for a failed response carries ('' when absent). */
  function MessageOf(body: Json): Result<Json, ApiError> {
    match HasKey(body, "message")
    case Err(e) => Err(Malformed(e))
    case Ok(present) =>
      if present then
        match Item(body, "message")
        case Ok(v) => Ok(v)
        case Err(e) => Err(Malformed(e))
      else Ok(JStr(""))
  }

  /**
   * `format_response`: a failed response is warned about, and raises only
   * when its reason is 'unauthorized' in any letter case; the value is the
   * body's 'data' field when it has one and the whole body otherwise.
   */
  function FormatResponse(r: Response): (f: Formatted)
    ensures r.ok ==> f.warning.None?
    ensures r.body.JObj? && "data" in r.body.fields && (r.ok || Lower(r.reason) != "unauthorized")
            ==> f.result == Ok(r.body.fields["data"])
    ensures r.body.JObj? && "data" !in r.body.fields && (r.ok || Lower(r.reason) != "unauthorized")
            ==> f.result == Ok(r.body)
    ensures !r.ok && r.body.JObj? ==> f.warning.Some?
    ensures !r.ok && r.body.JObj? && Lower(r.reason) == "unauthorized" ==> f.result == Err(InvalidToken)
    ensures f.result == Err(InvalidToken) ==> !r.ok && Lower(r.reason) == "unauthorized"
    ensures r.body.JObj? && "message" in r.body.fields && !r.ok ==> f.warning == Some(r.body.fields["message"])
    ensures !r.ok && (r.body.JNull? || r.body.JBool? || r.body.JNum?) ==> f == Formatted(None, Err(Malformed(TypeError)))
  {
    if r.ok then Formatted(None, Unwrap(r.body))
    else
      match MessageOf(r.body)
      case Err(e) => Formatted(None, Err(e))
      case Ok(msg) =>
        if Lower(r.reason) == "unauthorized" then Formatted(Some(msg), Err(InvalidToken))
        else Formatted(Some(msg), Unwrap(r.body))
  }

  /**
   * The one request an endpoint issues after its guards: it passes the
   * throttle, is sent once, and its response is unwrapped.
   */
  function Perform(c: Client, req: Request): (o: Outcome)
    ensures Gated(c, o, req)
    ensures !Refused(o)
  {
    match Throttle.Run(c.throttle, () => c.transport(req))
    case SleepRejected => Outcome([], [], None, Err(SleepFailed))
    case Done(steps, resp) =>
      var f := FormatResponse(resp);
      Outcome(steps, [req], f.warning, f.result)
  }

  /**
   * The outcome of sending `req` through the client's gate: `req` is sent
   * exactly once when the throttle admits calls, after sleeping the
   * throttle's delay when it is on, and the caller gets the unwrapped
   * response; otherwise nothing is sent and `time.sleep`'s error surfaces.
   */
  predicate Gated(c: Client, o: Outcome, req: Request) {
    && (Throttle.Admits(c.throttle) ==>
         && o.sent == [req]
         && Throttle.Calls(o.steps) == 1
         && Throttle.Slept(o.steps) == (if c.throttle.isOn then c.throttle.delaySec else 0)
         && o.steps[|o.steps| - 1] == Throttle.Call
         && FormatResponse(c.transport(req)) == Formatted(o.warning, o.result))
    && (!Throttle.Admits(c.throttle) ==>
         o.sent == [] && o.steps == [] && o.result == Err(SleepFailed))
  }

  /** The outcome of an argument guard that raises before any request. */
  predicate Refused(o: Outcome) {
    o.sent == [] && o.steps == [] && o.warning.None? && o.result.Err? && o.result.error.ValueError?
  }

  // ---------------------------------------------------------------- bots

  function BotTarget(botNumber: string): Target {
    TargetOf(BotsEndpoint, [botNumber])
  }

  function EnableTarget(botNumber: string): Target {
    TargetOf(BotsEndpoint, [botNumber, "enable"])
  }

  function DisableTarget(botNumber: string): Target {
    TargetOf(BotsEndpoint, [botNumber, "disable"])
  }

  /** `get_bot`: a GET of the bot, with the status filter and details flag as query. */
  function GetBot(c: Client, botNumber: string, statuses: seq<string>, includeDetails: bool): (o: Outcome)
    ensures Gated(c, o, Request(Get, BotTarget(botNumber), BotQuery(includeDetails, statuses), Authorization(c), EmptyForm))
  {
    Perform(c, Request(Get, BotTarget(botNumber), BotQuery(includeDetails, statuses), Authorization(c), EmptyForm))
  }

  /** `get_all_bots`: `get_bot` of the empty number with no status filter. */
  function GetAllBots(c: Client): (o: Outcome)
    ensures Gated(c, o, Request(Get, Resolved(Server + "bots/"), BotQuery(true, []), Authorization(c), EmptyForm))
  {
    AllBotsTarget();
    GetBot(c, "", [], true)
  }

  function EnableBot(c: Client, botNumber: string): (o: Outcome)
    ensures Gated(c, o, Request(Put, EnableTarget(botNumber), NoQuery, Authorization(c), EmptyForm))
  {
    Perform(c, Request(Put, EnableTarget(botNumber), NoQuery, Authorization(c), EmptyForm))
  }

  function DisableBot(c: Client, botNumber: string): (o: Outcome)
    ensures Gated(c, o, Request(Put, DisableTarget(botNumber), NoQuery, Authorization(c), EmptyForm))
  {
    Perform(c, Request(Put, DisableTarget(botNumber), NoQuery, Authorization(c), EmptyForm))
  }

  // ------------------------------------------------------------- reports

  function ReportTarget(reportNumber: string): Target {
    TargetOf(ReportsEndpoint, [reportNumber])
  }

  function RunReportTarget(reportNumber: string): Target {
    TargetOf(ReportsEndpoint, [reportNumber, "run"])
  }

  function GetBotReport(c: Client, reportNumber: string): (o: Outcome)
    ensures Gated(c, o, Request(Get, ReportTarget(reportNumber), NoQuery, Authorization(c), EmptyForm))
  {
    Perform(c, Request(Get, ReportTarget(reportNumber), NoQuery, Authorization(c), EmptyForm))
  }

  function GetAllBotReports(c: Client): (o: Outcome)
    ensures Gated(c, o, Request(Get, Resolved(Server + "bots/reports/"), NoQuery, Authorization(c), EmptyForm))
  {
    AllReportsTarget();
    GetBotReport(c, "")
  }

  /** The JSON document `update_bot_report` means to send. */
  function ReportPayload(name: string, startDate: string, endDate: string, runUntilLatest: bool): Record {
    map["name" := JStr(name), "start_date" := JStr(startDate), "end_date" := JStr(endDate),
        "run_until_latest_date" := JBool(runUntilLatest)]
  }

  /**
   * `update_bot_report` as written: its loop deletes the empty text fields
   * from the payload while iterating over it, so CPython raises
   * RuntimeError before any request whenever one of them is ''.
   */
  function UpdateBotReport(c: Client, reportNumber: string, name: string, startDate: string,
                           endDate: string, runUntilLatest: bool): (o: Outcome)
    ensures name == "" || startDate == "" || endDate == "" <==> o.result == Err(DictChangedDuringIteration)
    ensures o.result == Err(DictChangedDuringIteration) ==> o.sent == [] && o.steps == []
    ensures name != "" && startDate != "" && endDate != "" ==>
      Gated(c, o, Request(Put, ReportTarget(reportNumber), NoQuery, Authorization(c),
                          JsonText(JObj(ReportPayload(name, startDate, endDate, runUntilLatest)))))
  {
    if name == "" || startDate == "" || endDate == "" then
      Outcome([], [], None, Err(DictChangedDuringIteration))
    else
      Perform(c, Request(Put, ReportTarget(reportNumber), NoQuery, Authorization(c),
                         JsonText(JObj(ReportPayload(name, startDate, endDate, runUntilLatest)))))
  }

  /** The payload with its empty text fields left out, as the loop intends. */
  function PrunedReportPayload(name: string, startDate: string, endDate: string, runUntilLatest: bool): (p: Record)
    ensures "run_until_latest_date" in p && p["run_until_latest_date"] == JBool(runUntilLatest)
    ensures forall k :: k in p ==> k in ReportPayload(name, startDate, endDate, runUntilLatest)
    ensures forall k :: k in p ==> p[k] == ReportPayload(name, startDate, endDate, runUntilLatest)[k]
    ensures forall k :: k in ReportPayload(name, startDate, endDate, runUntilLatest) ==>
      (k in p <==> ReportPayload(name, startDate, endDate, runUntilLatest)[k] != JStr(""))
  {
    var full := ReportPayload(name, startDate, endDate, runUntilLatest);
    map k | k in full && full[k] != JStr("") :: full[k]
  }

  /** `update_bot_report` with the pruning done as intended: one request, never a RuntimeError. */
  function UpdateBotReportPruned(c: Client, reportNumber: string, name: string, startDate: string,
                                 endDate: string, runUntilLatest: bool): (o: Outcome)
    ensures Gated(c, o, Request(Put, ReportTarget(reportNumber), NoQuery, Authorization(c),
                               JsonText(JObj(PrunedReportPayload(name, startDate, endDate, runUntilLatest)))))
    ensures o.result != Err(DictChangedDuringIteration)
  {
    Perform(c, Request(Put, ReportTarget(reportNumber), NoQuery, Authorization(c),
                       JsonText(JObj(PrunedReportPayload(name, startDate, endDate, runUntilLatest)))))
  }

  /** `run_bot_report`: an empty number raises ValueError before any request. */
  function RunBotReport(c: Client, reportNumber: string): (o: Outcome)
    ensures reportNumber == "" <==> Refused(o)
    ensures reportNumber != "" ==> Gated(c, o, Request(Put, RunReportTarget(reportNumber), NoQuery, Authorization(c), EmptyForm))
  {
    if reportNumber == "" then
      Outcome([], [], None, Err(ValueError(NoReportNumber(reportNumber))))
    else
      Perform(c, Request(Put, RunReportTarget(reportNumber), NoQuery, Authorization(c), EmptyForm))
  }

  // ----------------------------------------------------------- variables

  function VariableTarget(variableNumber: string): Target {
    TargetOf(VariablesEndpoint, [variableNumber])
  }

  function GetBotVariables(c: Client, variableNumber: string): (o: Outcome)
    ensures Gated(c, o, Request(Get, VariableTarget(variableNumber), NoQuery, Authorization(c), EmptyForm))
  {
    Perform(c, Request(Get, VariableTarget(variableNumber), NoQuery, Authorization(c), EmptyForm))
  }

  function GetAllBotVariables(c: Client): (o: Outcome)
    ensures Gated(c, o, Request(Get, Resolved(Server + "bots/variables/"), NoQuery, Authorization(c), EmptyForm))
  {
    AllVariablesTarget();
    GetBotVariables(c, "")
  }

  /** The document `set_bot_variables` sends. */
  function VariablePayload(name: string, value: string): Json {
    JObj(map["name" := JStr(name), "value" := JStr(value)])
  }

  /** `set_bot_variables`: all three arguments are required before any request. */
  function SetBotVariables(c: Client, variableNumber: string, name: string, value: string): (o: Outcome)
    ensures variableNumber == "" || name == "" || value == "" <==> Refused(o)
    ensures variableNumber != "" && name != "" && value != "" ==>
      Gated(c, o, Request(Put, VariableTarget(variableNumber), NoQuery, Authorization(c),
                          JsonText(VariablePayload(name, value))))
  {
    if variableNumber == "" || name == "" || value == "" then
      Outcome([], [], None, Err(ValueError(NoVariableArguments(variableNumber, name, value))))
    else
      Perform(c, Request(Put, VariableTarget(variableNumber), NoQuery, Authorization(c),
                         JsonText(VariablePayload(name, value))))
  }

  // ----------------------------------------------------------------- URLs

  /** The bots path is the segment 'bots' followed by an empty one. */
  lemma BotsWords()
    ensures AllPlain(["bots"]) && Leading("bots") && PlainSegment("enable") && PlainSegment("disable")
    ensures BotsEndpoint == JoinSegments(["bots"] + [""])
  {
    assert (["bots"] + [""])[1..] == [""];
  }

  /** The reports path is 'bots', 'reports' and an empty segment. */
  lemma ReportsWords()
    ensures AllPlain(["bots", "reports"]) && Leading("bots") && PlainSegment("run")
    ensures ReportsEndpoint == JoinSegments(["bots", "reports"] + [""])
  {
    assert PlainSegment("bots") && PlainSegment("reports");
    assert (["bots", "reports"] + [""])[1..] == ["reports", ""];
    assert ["reports", ""][1..] == [""];
  }

  /** The variables path is 'bots', 'variables' and an empty segment. */
  lemma VariablesWords()
    ensures AllPlain(["bots", "variables"]) && Leading("bots")
    ensures VariablesEndpoint == JoinSegments(["bots", "variables"] + [""])
  {
    assert PlainSegment("bots") && PlainSegment("variables");
    assert (["bots", "variables"] + [""])[1..] == ["variables", ""];
    assert ["variables", ""][1..] == [""];
  }

  lemma AllBotsTarget()
    ensures BotTarget("") == Resolved(Server + "bots/")
  {
    BotsWords();
    RootTarget(["bots"]);
  }

  lemma AllReportsTarget()
    ensures ReportTarget("") == Resolved(Server + "bots/reports/")
  {
    ReportsWords();
    RootTarget(["bots", "reports"]);
  }

  lemma AllVariablesTarget()
    ensures VariableTarget("") == Resolved(Server + "bots/variables/")
  {
    VariablesWords();
    RootTarget(["bots", "variables"]);
  }

  /** For a plain bot number, the bot's URL is the number under 'bots/'. */
  lemma BotUrl(n: string)
    requires PlainSegment(n)
    ensures BotTarget(n) == Resolved(Server + ("bots/" + n))
  {
    BotsWords();
    ItemTarget(["bots"], n);
  }

  /** For a plain bot number, the enable URL is 'enable' under the bot's URL. */
  lemma EnableUrl(n: string)
    requires PlainSegment(n)
    ensures EnableTarget(n) == Resolved(Server + ("bots/" + n + "/enable"))
  {
    BotActionUrl(n, "enable", "/enable");
  }

  /** For a plain bot number, the disable URL is 'disable' under the bot's URL. */
  lemma DisableUrl(n: string)
    requires PlainSegment(n)
    ensures DisableTarget(n) == Resolved(Server + ("bots/" + n + "/disable"))
  {
    BotActionUrl(n, "disable", "/disable");
  }

  lemma BotActionUrl(n: string, action: string, suffix: string)
    requires PlainSegment(n) && (action == "enable" || action == "disable")
    requires suffix == "/" + action
    ensures TargetOf(BotsEndpoint, [n, action]) == Resolved(Server + ("bots/" + n + suffix))
  {
    BotsWords();
    ActionTarget(["bots"], n, action);
    Spelled("bots/" + n, action, suffix);
  }

  /** A path, '/' and a word, spelled with the '/' written into the word. */
  lemma Spelled(p: string, word: string, suffix: string)
    requires suffix == "/" + word
    ensures p + "/" + word == p + suffix
  {
  }

  /** For a plain report number, the report's URL is the number under 'bots/reports/'. */
  lemma ReportUrl(n: string)
    requires PlainSegment(n)
    ensures ReportTarget(n) == Resolved(Server + ("bots/reports/" + n))
  {
    ReportsWords();
    ItemTarget(["bots", "reports"], n);
  }

  /** For a plain report number, the run URL is 'run' under the report's URL. */
  lemma RunReportUrl(n: string)
    requires PlainSegment(n)
    ensures RunReportTarget(n) == Resolved(Server + ("bots/reports/" + n + "/run"))
  {
    ReportActionUrl(n, "run", "/run");
  }

  lemma ReportActionUrl(n: string, action: string, suffix: string)
    requires PlainSegment(n) && action == "run"
    requires suffix == "/" + action
    ensures TargetOf(ReportsEndpoint, [n, action]) == Resolved(Server + ("bots/reports/" + n + suffix))
  {
    ReportsWords();
    ActionTarget(["bots", "reports"], n, action);
    Spelled("bots/reports/" + n, action, suffix);
  }

  /** For a plain variable number, its URL is the number under 'bots/variables/'. */
  lemma VariableUrl(n: string)
    requires PlainSegment(n)
    ensures VariableTarget(n) == Resolved(Server + ("bots/variables/" + n))
  {
    VariablesWords();
    ItemTarget(["bots", "variables"], n);
  }

  /**
   * A bot number that starts with '/' replaces the server's whole path: the
   * enable URL is on the host's root, not under '/v1/bots/'.
   */
  lemma AbsoluteNumberEscapes(m: string)
    requires PlainSegment(m)
    ensures EnableTarget("/" + m) == Resolved(Origin + ("/" + m + "/enable"))
  {
    var n := "/" + m;
    var path := "/" + m + "/" + "enable";
    assert "/" + m + "/enable" == path;
    assert PosixJoin(BotsEndpoint, [n, "enable"]) == path by {
      assert JoinStep(BotsEndpoint, n) == n;
      assert [n, "enable"][1..] == ["enable"];
      assert n[|n| - 1] == m[|m| - 1] && m[|m| - 1] in m;
      assert JoinStep(n, "enable") == path;
      assert ["enable"][1..] == [];
    }
    assert PlainSegment("enable") by {
      BotsWords();
    }
    AbsoluteAction(m, "enable");
  }

  // ------------------------------------------------------- the finding

  /** Called with its defaults, as-written `update_bot_report` never reaches the network. */
  lemma UpdateBotReportDefaultsRaise(c: Client, reportNumber: string)
    ensures UpdateBotReport(c, reportNumber, "", "", "", false).sent == []
    ensures UpdateBotReport(c, reportNumber, "", "", "", false).result == Err(DictChangedDuringIteration)
  {
  }

  /** The intended version sends exactly the fields that were given. */
  lemma PrunedSendsGivenFields(c: Client, reportNumber: string, name: string)
    requires Throttle.Admits(c.throttle)
    requires name != ""
    ensures UpdateBotReportPruned(c, reportNumber, name, "", "", false).sent ==
      [Request(Put, ReportTarget(reportNumber), NoQuery, Authorization(c),
               JsonText(JObj(map["name" := JStr(name), "run_until_latest_date" := JBool(false)])))]
  {
    var p := PrunedReportPayload(name, "", "", false);
    assert p == map["name" := JStr(name), "run_until_latest_date" := JBool(false)];
  }
}
