/** The relay server's `POST /api/waitlist` handler: it checks the email, tries
    the Google Sheets sink and then the Formspree sink, records each sink's
    outcome, and answers 200 when at least one sink took the signup and 500
    otherwise. Configuration and the outcome of each outside call are inputs. */
module Server {
  import opened Values

  /** The environment variables the handler reads; `None` is an unset variable. */
  datatype Env = Env(sheetId: Option<string>, clientEmail: Option<string>, formspreeEndpoint: Option<string>)

  /** `process.env.X` is truthy: set, and not the empty string. */
  predicate IsSet(v: Option<string>) {
    v.Some? && v.value != ""
  }

  predicate SheetsConfigured(env: Env) {
    IsSet(env.sheetId) && IsSet(env.clientEmail)
  }

  predicate FormspreeConfigured(env: Env) {
    IsSet(env.formspreeEndpoint)
  }

  /** How an awaited outside call ends: it returns, or it throws. */
  datatype Outcome = Returns | Throws

  /** The inputs the handler cannot see into: whether `getGoogleSheetsClient`
      built a client (it returns `null` when building fails), and how the
      Sheets append and the Formspree post end. */
  datatype Sinks = Sinks(clientBuilt: bool, append: Outcome, post: Outcome)

  /** One recorded sink outcome. */
  datatype SinkStatus = Success | Error | NotConfigured

  /** The `results` object; `None` is a field still `null`. */
  datatype Results = Results(googleSheets: Option<SinkStatus>, formspree: Option<SinkStatus>)

  datatype Response = Response(status: int, body: map<string, Json>)

  /** An outside call the handler makes, with exactly the arguments it passes. */
  datatype SinkCall =
    | SheetsAppend(spreadsheetId: string, range: string, valueInputOption: string, values: seq<seq<Json>>)
    | FormspreePost(url: string, body: map<string, Json>)

  const EmailRequired := "Email is required"
  const SavedMessage := "Successfully added to waitlist"
  const SaveFailed := "Failed to save email"
  const SignupSubject := "New Quickgage Waitlist Signup"
  const SheetRange := "Sheet1!A:B"
  const InputOption := "USER_ENTERED"

  function StatusJson(r: Option<SinkStatus>): Json {
    match r
    case None => JNull
    case Some(Success) => JStr("success")
    case Some(Error) => JStr("error")
    case Some(NotConfigured) => JStr("not_configured")
  }

  function ResultsJson(r: Results): Json {
    JObj(map["googleSheets" := StatusJson(r.googleSheets), "formspree" := StatusJson(r.formspree)])
  }

  /** The Sheets outcome: `not_configured` exactly when the sheet id or the client
      email is unset; otherwise `null` when no client could be built, `success`
      when the append returns and `error` when it throws. */
  function SheetsStatus(env: Env, sinks: Sinks): (r: Option<SinkStatus>)
    ensures r == Some(NotConfigured) <==> !SheetsConfigured(env)
    ensures r == None <==> SheetsConfigured(env) && !sinks.clientBuilt
    ensures r == Some(Success) <==> SheetsConfigured(env) && sinks.clientBuilt && sinks.append == Returns
    ensures r == Some(Error) <==> SheetsConfigured(env) && sinks.clientBuilt && sinks.append.Throws?
  {
    if !SheetsConfigured(env) then Some(NotConfigured)
    else if !sinks.clientBuilt then None
    else if sinks.append == Returns then Some(Success)
    else Some(Error)
  }

  /** The Formspree outcome: `not_configured` exactly when the endpoint is unset;
      otherwise `success` when the post returns and `error` when it throws. */
  function FormspreeStatus(env: Env, sinks: Sinks): (r: Option<SinkStatus>)
    ensures r.Some?
    ensures r == Some(NotConfigured) <==> !FormspreeConfigured(env)
    ensures r == Some(Success) <==> FormspreeConfigured(env) && sinks.post == Returns
    ensures r == Some(Error) <==> FormspreeConfigured(env) && sinks.post.Throws?
  {
    if !FormspreeConfigured(env) then Some(NotConfigured)
    else if sinks.post == Returns then Some(Success)
    else Some(Error)
  }

  /** The final answer from the recorded outcomes: 200 with `success: true` when
      at least one sink reports `success`, otherwise 500 with `success: false`.
      Both bodies carry the `results` object; neither carries a `position`. */
  function Respond(results: Results): (r: Response)
    ensures r.status == 200 <==> Some(Success) in {results.googleSheets, results.formspree}
    ensures r.status == 200 || r.status == 500
    ensures "success" in r.body && r.body["success"] == JBool(r.status == 200)
    ensures r.status == 200 ==> r.body.Keys == {"success", "message", "results"} && r.body["message"] == JStr(SavedMessage)
    ensures r.status == 500 ==> r.body.Keys == {"success", "error", "results"} && r.body["error"] == JStr(SaveFailed)
    ensures "results" in r.body && r.body["results"] == ResultsJson(results)
    ensures "position" !in r.body
  {
    var anySuccess := results.googleSheets == Some(Success) || results.formspree == Some(Success);
    if anySuccess then
      Response(200, map["success" := JBool(true), "message" := JStr(SavedMessage), "results" := ResultsJson(results)])
    else
      Response(500, map["success" := JBool(false), "error" := JStr(SaveFailed), "results" := ResultsJson(results)])
  }

  /** The handler. It changes no state of its own; it returns the response and
      the outside calls it made, in order. */
  method HandleWaitlist(body: map<string, Json>, env: Env, sinks: Sinks, now: string)
    returns (resp: Response, calls: seq<SinkCall>)
    // a falsy email is refused before any sink is tried
    ensures !Present(Lookup(body, "email")) ==>
              resp == Response(400, map["error" := JStr(EmailRequired)]) && calls == []
    ensures resp.status == 400 <==> !Present(Lookup(body, "email"))
    // otherwise each sink's outcome is recorded and the answer is decided from them
    ensures Present(Lookup(body, "email")) ==>
              resp == Respond(Results(SheetsStatus(env, sinks), FormspreeStatus(env, sinks)))
    // the calls: Sheets first, then Formspree, each only when configured, each with
    // the same email and the same timestamp; a failing Sheets sink never stops Formspree
    ensures Present(Lookup(body, "email")) ==>
              var email := body["email"];
              calls ==
                (if SheetsConfigured(env) && sinks.clientBuilt
                 then [SheetsAppend(env.sheetId.value, SheetRange, InputOption, [[email, JStr(now)]])]
                 else []) +
                (if FormspreeConfigured(env)
                 then [FormspreePost(env.formspreeEndpoint.value,
                                     map["email" := email, "timestamp" := JStr(now), "_subject" := JStr(SignupSubject)])]
                 else [])
  {
    var email := Lookup(body, "email");
    if !Present(email) {
      resp := Response(400, map["error" := JStr(EmailRequired)]);
      calls := [];
      return;
    }

    var timestamp := JStr(now);
    var googleSheets: Option<SinkStatus> := None;
    var formspree: Option<SinkStatus> := None;
    calls := [];

    // 1. Google Sheets, when configured
    if IsSet(env.sheetId) && IsSet(env.clientEmail) {
      if sinks.clientBuilt {
        calls := calls + [SheetsAppend(env.sheetId.value, SheetRange, InputOption, [[email.value, timestamp]])];
        if sinks.append == Returns {
          googleSheets := Some(Success);
        } else {
          googleSheets := Some(Error);
        }
      }
    } else {
      googleSheets := Some(NotConfigured);
    }

    // 2. Formspree, when configured
    if IsSet(env.formspreeEndpoint) {
      calls := calls + [FormspreePost(env.formspreeEndpoint.value,
                                      map["email" := email.value, "timestamp" := timestamp, "_subject" := JStr(SignupSubject)])];
      if sinks.post == Returns {
        formspree := Some(Success);
      } else {
        formspree := Some(Error);
      }
    } else {
      formspree := Some(NotConfigured);
    }

    resp := Respond(Results(googleSheets, formspree));
  }

  /** Success needs a sink that actually took the signup: with both sinks
      unconfigured, or every configured sink failing, the answer is 500. */
  lemma {:induction false} FailsUnlessSomeSinkSucceeds(env: Env, sinks: Sinks)
    ensures Respond(Results(SheetsStatus(env, sinks), FormspreeStatus(env, sinks))).status == 500
            <==> !(SheetsConfigured(env) && sinks.clientBuilt && sinks.append == Returns)
                 && !(FormspreeConfigured(env) && sinks.post == Returns)
  {
  }
}
