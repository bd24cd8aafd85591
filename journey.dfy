/** One submission from the profile step all the way through: the browser builds
    the request body, the relay server handles it, and the browser applies the
    server's answer. */
module Journey {
  import opened Values
  import opened EmailRule
  import L = Landing
  import S = Server

  /** How the browser reads the server's answer: `response.ok` holds for the 2xx
      statuses, and `data.position` is the body's `position` property. */
  function ReplyOf(resp: S.Response): L.Reply {
    L.Responded(200 <= resp.status < 300, Lookup(resp.body, "position"))
  }

  /** A submission from the profile step. The server never refuses the email the
      browser sends (the browser only gets here with a valid one); the flow
      reaches confirmation exactly when a sink took the signup, and since the
      server's answer has no `position`, the position shown is always the
      browser's random fallback. On failure the browser is back at email entry
      with its email and profile kept. Each sink receives that email and the
      server's own timestamp, not the one the browser sent. */
  method SubmitProfile(s: L.FormState, skip: bool, now: string, env: S.Env, sinks: S.Sinks,
                       serverNow: string, fallback: int)
    returns (t: L.FormState, calls: seq<S.SinkCall>)
    requires L.Consistent(s) && s.step == L.ProfileEntry && 1 <= fallback <= 200
    ensures L.Consistent(t)
    ensures t.step == L.Confirmation <==>
              Some(S.Success) in {S.SheetsStatus(env, sinks), S.FormspreeStatus(env, sinks)}
    ensures t.step == L.Confirmation ==> t.waitlistPosition == JNum(fallback)
    ensures t.step != L.Confirmation ==>
              t.step == L.EmailEntry && t.emailError == L.SubmitFailedMessage &&
              t.email == s.email && t.formData == s.formData
    ensures |calls| == (if S.SheetsConfigured(env) && sinks.clientBuilt then 1 else 0)
                       + (if S.FormspreeConfigured(env) then 1 else 0)
    ensures forall c | c in calls ::
              (c.SheetsAppend? ==> c.values == [[JStr(s.email), JStr(serverNow)]]) &&
              (c.FormspreePost? ==> c.body == map["email" := JStr(s.email), "timestamp" := JStr(serverNow),
                                                   "_subject" := JStr(S.SignupSubject)])
  {
    var body := L.Payload(s.email, s.formData, skip, now);
    assert Present(Lookup(body, "email"));
    var resp;
    resp, calls := S.HandleWaitlist(body, env, sinks, serverNow);
    t := L.FinalSubmitted(s, ReplyOf(resp), fallback);
  }
}
