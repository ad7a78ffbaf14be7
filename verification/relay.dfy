/** The relay endpoint (app/api/mark-attendance/route.ts, `GET`): it checks
    the query, checks that the upstream URL is configured, posts the
    credentials upstream and either maps the upstream's failure to a generic
    JSON error or streams the re-framed upstream body to the browser.

    The handler is split at its one network call: `Decide` is everything up
    to the call (it either answers at once or names the request to send), and
    `Respond` is everything after it, given what the upstream did. */
module Relay {
  import opened Types
  import opened Text
  import opened Reframer

  /** The decoded query string, in order; `Get` returns the first value of a
      name, as `URLSearchParams.get` does. */
  type Query = seq<(string, string)>

  function Get(q: Query, name: string): Option<string>
  {
    if |q| == 0 then None
    else if q[0].0 == name then Some(q[0].1)
    else Get(q[1..], name)
  }

  /** `Get` finds nothing exactly when no entry has the name. */
  lemma {:induction false} GetAbsent(q: Query, name: string)
    ensures Get(q, name).None? <==> forall i :: 0 <= i < |q| ==> q[i].0 != name
  {
    if |q| > 0 && q[0].0 != name {
      GetAbsent(q[1..], name);
      assert forall i :: 1 <= i < |q| ==> q[1..][i - 1] == q[i];
    }
  }

  /** `Get` looks at the first entry before the rest. */
  lemma GetCons(n: string, v: string, rest: Query, name: string)
    ensures Get([(n, v)] + rest, name) == if n == name then Some(v) else Get(rest, name)
  {
    assert ([(n, v)] + rest)[1..] == rest;
  }

  /** `Get` on a query that starts with three given entries. */
  lemma GetOfTriple(a: (string, string), b: (string, string), c: (string, string), rest: Query, name: string)
    ensures Get([a, b, c] + rest, name)
         == if a.0 == name then Some(a.1) else if b.0 == name then Some(b.1)
            else if c.0 == name then Some(c.1) else Get(rest, name)
  {
    GetCons(a.0, a.1, [b, c] + rest, name);
    assert [a, b, c] + rest == [a] + ([b, c] + rest);
    GetCons(b.0, b.1, [c] + rest, name);
    assert [b, c] + rest == [b] + ([c] + rest);
    GetCons(c.0, c.1, rest, name);
  }

  /** Entries after the first one for a name never shadow it. */
  lemma {:induction false} GetFirst(q: Query, i: nat, name: string)
    requires i < |q| && q[i].0 == name
    requires forall j :: 0 <= j < i ==> q[j].0 != name
    ensures Get(q, name) == Some(q[i].1)
  {
    if i > 0 {
      GetFirst(q[1..], i - 1, name);
    }
  }

  /** JavaScript truthiness of a query value: present and not empty. */
  predicate Truthy(v: Option<string>)
  {
    v.Some? && v.value != ""
  }

  const UserEmail := "user_email"
  const QuickchexPass := "quickchex_pass"
  const GmailAppPassword := "gmail_app_password"
  const AppSession := "_quikchex_app_session"
  const RememberToken := "remember_user_token"

  const MissingCredentials := "Missing credentials"
  const NotConfigured := "API URL not configured on server"
  const ConnectFailed := "Failed to connect to external API proxy"
  const UpstreamErrorPrefix := "External API Error: "

  /** An HTTP status a fetched response can carry. */
  type HttpStatus = s: int | 200 <= s <= 599 witness 200

  predicate IsOk(status: HttpStatus)
  {
    200 <= status <= 299
  }

  /** The null body statuses of the Fetch standard: a `Response` built with
      a body and one of these statuses throws a `TypeError`. */
  predicate NullBodyStatus(status: int)
  {
    status == 101 || status == 103 || status == 204 || status == 205 || status == 304
  }

  /** What the browser gets: a JSON error object `{"status":"error",
      "message":...}` with an HTTP status, or an event stream of frames that
      ends either cleanly or with an error signal. */
  datatype Response =
    | JsonError(status: int, message: string)
    | EventStream(frames: seq<string>, aborted: bool)
  {
    /** The response body of a JSON error; every message here is plain text
        that `JSON.stringify` copies without escapes. */
    function Body(): string
      requires JsonError?
    {
      "{\"status\":\"error\",\"message\":\"" + message + "\"}"
    }

    /** The response headers: a JSON error says so in its content type; a
        stream is announced as an event stream that is neither cached nor
        buffered by a proxy, on a connection that stays open. */
    function Headers(): (hs: seq<(string, string)>)
      ensures |hs| > 0 && hs[0].0 == "Content-Type"
      ensures hs[0].1 == "application/json" <==> JsonError?
      ensures EventStream? ==> hs[0].1 == "text/event-stream"
                               && ("Cache-Control", "no-cache") in hs && ("Connection", "keep-alive") in hs
                               && ("X-Accel-Buffering", "no") in hs
      ensures JsonError? ==> |hs| == 1
    {
      if JsonError? then [("Content-Type", "application/json")]
      else [("Content-Type", "text/event-stream"), ("Cache-Control", "no-cache"),
            ("Connection", "keep-alive"), ("X-Accel-Buffering", "no")]
    }
  }

  /** The single POST the relay sends upstream, with its JSON body as an
      ordered list of fields. */
  datatype UpstreamRequest = UpstreamRequest(url: string, body: seq<(string, string)>)

  /** Either an answer without any upstream call, or the call to make. */
  datatype Plan = Reject(response: Response) | Forward(request: UpstreamRequest)

  /** What the upstream did: the fetch itself failed, or it answered with a
      status, the text of its body (read only on a non-ok answer; `None` when
      reading it failed) and, on an ok answer, its body as decoded chunks
      (`None` for a response without a body). */
  datatype UpstreamReply =
    | Unreachable
    | Answered(status: HttpStatus, errorText: Option<string>, body: Option<UpstreamBody>)

  /** The decoded chunks of an upstream body, and whether a read failed after
      the last of them. */
  datatype UpstreamBody = UpstreamBody(chunks: seq<string>, readFails: bool)

  /** The JSON body posted upstream: the three credentials, then each
      continuation token that was given non-empty. */
  function UpstreamBodyFields(email: string, pass: string, gmail: string,
                              session: Option<string>, remember: Option<string>): (fields: seq<(string, string)>)
    ensures |fields| >= 3
    ensures fields[..3] == [(UserEmail, email), (QuickchexPass, pass), (GmailAppPassword, gmail)]
  {
    [(UserEmail, email), (QuickchexPass, pass), (GmailAppPassword, gmail)]
    + (if Truthy(session) then [(AppSession, session.value)] else [])
    + (if Truthy(remember) then [(RememberToken, remember.value)] else [])
  }

  predicate CredentialsGiven(q: Query)
  {
    Truthy(Get(q, UserEmail)) && Truthy(Get(q, QuickchexPass)) && Truthy(Get(q, GmailAppPassword))
  }

  /** Everything the handler does before its network call. */
  function Decide(q: Query, apiUrl: Option<string>): (p: Plan)
    ensures p.Forward? <==> CredentialsGiven(q) && Truthy(apiUrl)
    ensures p.Reject? ==> p.response.JsonError?
    ensures p.Forward? ==> apiUrl.Some? && p.request.url == apiUrl.value
  {
    var email := Get(q, UserEmail);
    var pass := Get(q, QuickchexPass);
    var gmail := Get(q, GmailAppPassword);
    if !Truthy(email) || !Truthy(pass) || !Truthy(gmail) then
      Reject(JsonError(400, MissingCredentials))
    else if !Truthy(apiUrl) then
      Reject(JsonError(500, NotConfigured))
    else
      Forward(UpstreamRequest(apiUrl.value,
        UpstreamBodyFields(email.value, pass.value, gmail.value, Get(q, AppSession), Get(q, RememberToken))))
  }

  /** Everything the handler does after its network call. Mapping a non-ok
      answer builds a JSON `Response` with the upstream's status; for a null
      body status that constructor throws, and the handler's `catch` answers
      as for a failed fetch. */
  function Respond(reply: UpstreamReply): (r: Response)
    ensures r.JsonError? ==> r.status != 200 && !NullBodyStatus(r.status)
    ensures r.EventStream? <==> reply.Answered? && IsOk(reply.status)
  {
    match reply
    case Unreachable => JsonError(500, ConnectFailed)
    case Answered(status, errorText, body) =>
      if !IsOk(status) then
        if errorText.None? || NullBodyStatus(status) then JsonError(500, ConnectFailed)
        else JsonError(status, UpstreamErrorPrefix + DecimalString(status))
      else if body.None? then EventStream([], false)
      else EventStream(StreamFrames(body.value.chunks), body.value.readFails)
  }

  /** One request end to end: the response, and the upstream request if one
      was sent. */
  datatype Exchange = Exchange(response: Response, sent: Option<UpstreamRequest>)

  function Handle(q: Query, apiUrl: Option<string>, reply: UpstreamReply): (e: Exchange)
    ensures e.sent.Some? <==> Decide(q, apiUrl).Forward?
  {
    match Decide(q, apiUrl)
    case Reject(r) => Exchange(r, None)
    case Forward(req) => Exchange(Respond(reply), Some(req))
  }

  /** A missing or empty credential is answered with 400 "Missing
      credentials" before the configuration is looked at, and nothing is
      sent upstream, whatever the upstream would have done. */
  lemma MissingCredentialsRejected(q: Query, apiUrl: Option<string>, reply: UpstreamReply)
    requires !CredentialsGiven(q)
    ensures Handle(q, apiUrl, reply) == Exchange(JsonError(400, MissingCredentials), None)
    ensures Handle(q, apiUrl, reply).response.Body() == "{\"status\":\"error\",\"message\":\"Missing credentials\"}"
  {
    assert Decide(q, apiUrl) == Reject(JsonError(400, MissingCredentials));
    MissingCredentialsBody();
  }

  /** The body text of the 400 answer. */
  lemma MissingCredentialsBody()
    ensures JsonError(400, MissingCredentials).Body() == "{\"status\":\"error\",\"message\":\"Missing credentials\"}"
  {
  }

  /** With all credentials given but no upstream URL, the answer is 500 "API
      URL not configured on server" and nothing is sent upstream. */
  lemma UnconfiguredRejected(q: Query, apiUrl: Option<string>, reply: UpstreamReply)
    requires CredentialsGiven(q) && !Truthy(apiUrl)
    ensures Handle(q, apiUrl, reply) == Exchange(JsonError(500, NotConfigured), None)
  {
  }

  /** The upstream is called exactly when all three credentials are given
      and the URL is configured; the call goes to that URL. */
  lemma ForwardIff(q: Query, apiUrl: Option<string>, reply: UpstreamReply)
    ensures Handle(q, apiUrl, reply).sent.Some? <==> CredentialsGiven(q) && Truthy(apiUrl)
    ensures Handle(q, apiUrl, reply).sent.Some? ==> Handle(q, apiUrl, reply).sent.value.url == apiUrl.value
  {
  }

  /** The value of a field in a JSON body, by the first entry with that
      name. */
  function Field(body: seq<(string, string)>, name: string): Option<string>
  {
    Get(body, name)
  }

  /** The upstream body carries the three credentials exactly as queried;
      each continuation token is present iff its query value is non-empty,
      and then carries that value; nothing else is in it. */
  lemma UpstreamBodyFaithful(q: Query, apiUrl: Option<string>)
    requires Decide(q, apiUrl).Forward?
    ensures var body := Decide(q, apiUrl).request.body;
      && Field(body, UserEmail) == Get(q, UserEmail)
      && Field(body, QuickchexPass) == Get(q, QuickchexPass)
      && Field(body, GmailAppPassword) == Get(q, GmailAppPassword)
      && (Field(body, AppSession).Some? <==> Truthy(Get(q, AppSession)))
      && (Field(body, AppSession).Some? ==> Field(body, AppSession) == Get(q, AppSession))
      && (Field(body, RememberToken).Some? <==> Truthy(Get(q, RememberToken)))
      && (Field(body, RememberToken).Some? ==> Field(body, RememberToken) == Get(q, RememberToken))
      && |body| == 3 + (if Truthy(Get(q, AppSession)) then 1 else 0) + (if Truthy(Get(q, RememberToken)) then 1 else 0)
  {
    var session := Get(q, AppSession);
    var remember := Get(q, RememberToken);
    BodyFields(Get(q, UserEmail).value, Get(q, QuickchexPass).value, Get(q, GmailAppPassword).value,
               session, remember);
  }

  /** The fields of the posted body, one name at a time. */
  lemma BodyFields(email: string, pass: string, gmail: string, session: Option<string>, remember: Option<string>)
    ensures var body := UpstreamBodyFields(email, pass, gmail, session, remember);
      && Field(body, UserEmail) == Some(email)
      && Field(body, QuickchexPass) == Some(pass)
      && Field(body, GmailAppPassword) == Some(gmail)
      && Field(body, AppSession) == (if Truthy(session) then session else None)
      && Field(body, RememberToken) == (if Truthy(remember) then remember else None)
      && |body| == 3 + (if Truthy(session) then 1 else 0) + (if Truthy(remember) then 1 else 0)
  {
    var t2: Query := if Truthy(remember) then [(RememberToken, remember.value)] else [];
    var t1: Query := (if Truthy(session) then [(AppSession, session.value)] else []) + t2;
    var body := UpstreamBodyFields(email, pass, gmail, session, remember);
    assert body == [(UserEmail, email), (QuickchexPass, pass), (GmailAppPassword, gmail)] + t1;
    forall name | name in [UserEmail, QuickchexPass, GmailAppPassword, AppSession, RememberToken]
      ensures Get(body, name) == if name == UserEmail then Some(email)
                                 else if name == QuickchexPass then Some(pass)
                                 else if name == GmailAppPassword then Some(gmail)
                                 else Get(t1, name)
    {
      GetOfTriple((UserEmail, email), (QuickchexPass, pass), (GmailAppPassword, gmail), t1, name);
    }
    if Truthy(session) {
      GetCons(AppSession, session.value, t2, AppSession);
      GetCons(AppSession, session.value, t2, RememberToken);
    } else {
      assert t1 == t2;
    }
    if Truthy(remember) {
      assert t2 == [(RememberToken, remember.value)] + [];
      GetCons(RememberToken, remember.value, [], RememberToken);
      GetCons(RememberToken, remember.value, [], AppSession);
    }
  }

  /** An upstream that answers with a non-ok status `s` other than 304 (and
      whose error text could be read) yields status `s` and the message "External API Error:
      <s>"; the error text itself never reaches the browser: two answers
      that differ only in it give the same response. */
  lemma UpstreamErrorMapped(status: HttpStatus, text1: string, text2: string,
                            b1: Option<UpstreamBody>, b2: Option<UpstreamBody>)
    requires !IsOk(status) && !NullBodyStatus(status)
    ensures Respond(Answered(status, Some(text1), b1)) == JsonError(status, UpstreamErrorPrefix + DecimalString(status))
    ensures Respond(Answered(status, Some(text1), b1)) == Respond(Answered(status, Some(text2), b2))
  {
  }

  /** The message of a mapped upstream error names the status it carries:
      reading the number back out of the message gives the status. */
  lemma UpstreamErrorNamesStatus(status: HttpStatus, text: string, b: Option<UpstreamBody>)
    requires !IsOk(status) && !NullBodyStatus(status)
    ensures var r := Respond(Answered(status, Some(text), b));
      && r.JsonError? && r.status == status
      && StartsWith(r.message, UpstreamErrorPrefix)
      && IsDigits(r.message[|UpstreamErrorPrefix|..])
      && DecimalValue(r.message[|UpstreamErrorPrefix|..]) == status
  {
    var r := Respond(Answered(status, Some(text), b));
    assert r.message[|UpstreamErrorPrefix|..] == DecimalString(status);
    DecimalRoundTrip(status);
  }

  /** A failed fetch, an error body that cannot be read, or a non-ok answer
      with a null body status (304) yields 500 "Failed to connect to
      external API proxy". */
  lemma ConnectFailureMapped(reply: UpstreamReply)
    requires reply.Unreachable? || (!IsOk(reply.status) && (reply.errorText.None? || NullBodyStatus(reply.status)))
    ensures Respond(reply) == JsonError(500, ConnectFailed)
  {
  }

  /** An ok upstream answer streams exactly the re-framed chunks, in order,
      ending with an error signal iff a read failed. */
  lemma OkAnswerStreams(status: HttpStatus, text: Option<string>, body: UpstreamBody)
    requires IsOk(status)
    ensures Respond(Answered(status, text, Some(body))) == EventStream(StreamFrames(body.chunks), body.readFails)
    ensures forall i :: 0 <= i < |Respond(Answered(status, text, Some(body))).frames| ==>
              WellFormedFrame(Respond(Answered(status, text, Some(body))).frames[i])
  {
  }

  /** The query the browser sends for a run: the three credentials only. */
  function ClientQuery(c: Credentials): (q: Query)
    ensures Get(q, UserEmail) == Some(c.quickchexEmail)
    ensures Get(q, QuickchexPass) == Some(c.quickchexPassword)
    ensures Get(q, GmailAppPassword) == Some(c.googlePassword)
    ensures Get(q, AppSession) == None && Get(q, RememberToken) == None
  {
    var q := [(UserEmail, c.quickchexEmail), (QuickchexPass, c.quickchexPassword), (GmailAppPassword, c.googlePassword)];
    assert q == q + [];
    GetOfTriple(q[0], q[1], q[2], [], UserEmail);
    GetOfTriple(q[0], q[1], q[2], [], QuickchexPass);
    GetOfTriple(q[0], q[1], q[2], [], GmailAppPassword);
    GetOfTriple(q[0], q[1], q[2], [], AppSession);
    GetOfTriple(q[0], q[1], q[2], [], RememberToken);
    q
  }

  /** A run the browser starts with complete credentials is forwarded when
      the URL is configured, and its upstream body is exactly the three
      credentials: the browser never supplies continuation tokens. */
  lemma ClientRunForwarded(c: Credentials, apiUrl: Option<string>)
    requires Complete(c) && Truthy(apiUrl)
    ensures Decide(ClientQuery(c), apiUrl)
         == Forward(UpstreamRequest(apiUrl.value,
              [(UserEmail, c.quickchexEmail), (QuickchexPass, c.quickchexPassword), (GmailAppPassword, c.googlePassword)]))
  {
  }
}
