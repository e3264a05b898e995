/** The `/api/contact` route: `POST` derives a client key from the request
    headers, consults the rate limiter, parses and validates the JSON body, and
    answers with a status and a JSON body; `GET` is refused. Whether
    `request.json()` throws is the `Unparseable` parse outcome; `sanitizeString`
    is the parameter `sanitize`; console logging is the `logged` part of the
    outcome. The route never calls `sendContactEmail`. */
module ContactRoute {
  import opened Wrappers
  import opened JsText
  import opened Validation
  import opened RateLimit

  /** A header value is used when it is present and non-empty. */
  predicate Usable(header: Option<string>)
  {
    header.Some? && header.value != ""
  }

  /** The rate-limit key: `x-forwarded-for`, else `x-real-ip`, else "anonymous". */
  function ClientKey(forwardedFor: Option<string>, realIp: Option<string>): (key: string)
    ensures key != ""
    ensures Usable(forwardedFor) ==> key == forwardedFor.value
    ensures !Usable(forwardedFor) && Usable(realIp) ==> key == realIp.value
    ensures !Usable(forwardedFor) && !Usable(realIp) ==> key == "anonymous"
  {
    if Usable(forwardedFor) then forwardedFor.value
    else if Usable(realIp) then realIp.value
    else "anonymous"
  }

  /** The outcome of `await request.json()`. */
  datatype ParseOutcome = Unparseable | Parsed(body: RawBody)

  /** One entry of the 400 response's `details`: `{field: issue.path[0], message}`. */
  datatype Detail = Detail(field: Option<string>, message: string)

  datatype ResponseBody =
    | ErrorBody(error: string)
    | InvalidInput(error: string, details: seq<Detail>)
    | SuccessBody(message: Option<string>)

  datatype Response = Response(status: int, body: ResponseBody)

  /** The sanitised submission the route logs. */
  datatype Submission = Submission(name: string, email: string, subject: string, message: string)

  /** The response, and the submission logged on the success path. */
  datatype Handled = Handled(response: Response, logged: Option<Submission>)

  const TooManyRequests := "Too many requests. Please try again in an hour."
  const InvalidInputError := "Invalid input"
  const SuccessMessage := "Message sent successfully! You will receive a response soon."
  const ServerError := "Failed to send message. Please try again later."

  function ToDetail(issue: Issue): Detail
  {
    Detail(if issue.path.Some? then Some(issue.path.value.Key()) else None, issue.message)
  }

  function Details(issues: seq<Issue>): (ds: seq<Detail>)
    ensures |ds| == |issues|
    ensures forall i :: 0 <= i < |issues| ==> ds[i] == ToDetail(issues[i])
  {
    seq(|issues|, i requires 0 <= i < |issues| => ToDetail(issues[i]))
  }

  /** `r` is `t` with only whitespace cut from its two ends. */
  ghost predicate TrimmedFrom(r: string, t: string)
  {
    exists i, j :: (0 <= i <= j <= |t| && r == t[i..j] &&
      (forall k {:trigger IsWhitespace(t[k])} :: 0 <= k < i ==> IsWhitespace(t[k])) &&
      (forall k {:trigger IsWhitespace(t[k])} :: j <= k < |t| ==> IsWhitespace(t[k])))
  }

  /** Where `s.trim()` cuts `s`. */
  lemma TrimBounds(s: string) returns (i: nat, j: nat)
    ensures i <= j <= |s| && Trim(s) == s[i..j]
  {
    var t := TrimStart(s);
    var r := TrimEnd(t);
    i, j := |s| - |t|, |s| - |t| + |r|;
    assert Trim(s) == r;
  }

  /** A trimmed string is no longer than the original, and a string with no
      A-Z letter keeps none after trimming. */
  lemma TrimNoUpper(s: string)
    requires forall k :: 0 <= k < |s| ==> !('A' <= s[k] <= 'Z')
    ensures |Trim(s)| <= |s|
    ensures forall k :: 0 <= k < |Trim(s)| ==> !('A' <= Trim(s)[k] <= 'Z')
  {
    var i, j := TrimBounds(s);
    forall k | 0 <= k < |Trim(s)|
      ensures !('A' <= Trim(s)[k] <= 'Z')
    {
      assert Trim(s)[k] == s[i + k];
    }
  }

  /** `e` is what `raw.toLowerCase().trim()` yields: no longer than `raw`, free of
      A-Z letters, without whitespace at either end, and a slice of the lower-cased
      `raw` whose cut-off ends are all whitespace. */
  ghost predicate NormalizedEmail(e: string, raw: string)
  {
    |e| <= |raw| &&
    (forall k :: 0 <= k < |e| ==> !('A' <= e[k] <= 'Z')) &&
    (e != [] ==> !IsWhitespace(e[0]) && !IsWhitespace(e[|e| - 1])) &&
    TrimmedFrom(e, ToLowerCase(raw))
  }

  lemma LowerTrimmed(s: string)
    ensures NormalizedEmail(Trim(ToLowerCase(s)), s)
  {
    var l := ToLowerCase(s);
    assert forall k :: 0 <= k < |l| ==> l[k] == AsciiLower(s[k]);
    TrimNoUpper(l);
  }

  /** Where a whitespace-cut slice of `t` starts and ends. */
  lemma TrimmedCut(r: string, t: string) returns (i: nat, j: nat)
    requires TrimmedFrom(r, t)
    ensures i <= j <= |t| && r == t[i..j]
    ensures forall k {:trigger IsWhitespace(t[k])} :: 0 <= k < i ==> IsWhitespace(t[k])
    ensures forall k {:trigger IsWhitespace(t[k])} :: j <= k < |t| ==> IsWhitespace(t[k])
  {
    i, j :| 0 <= i <= j <= |t| && r == t[i..j] &&
      (forall k {:trigger IsWhitespace(t[k])} :: 0 <= k < i ==> IsWhitespace(t[k])) &&
      (forall k {:trigger IsWhitespace(t[k])} :: j <= k < |t| ==> IsWhitespace(t[k]));
  }

  /** The first and last characters of a non-empty slice. */
  lemma SliceEnds(l: string, i: nat, j: nat)
    requires i < j <= |l|
    ensures l[i..j][0] == l[i] && l[i..j][j - i - 1] == l[j - 1]
  {
  }

  /** Two whitespace-cut slices of `l` that both start and end on a
      non-whitespace character are the same slice. */
  lemma {:induction false} TrimmedSame(a: string, b: string, l: string)
    requires TrimmedFrom(a, l) && TrimmedFrom(b, l)
    requires a != [] ==> !IsWhitespace(a[0]) && !IsWhitespace(a[|a| - 1])
    requires b != [] ==> !IsWhitespace(b[0]) && !IsWhitespace(b[|b| - 1])
    ensures a == b
  {
    var i, j := TrimmedCut(a, l);
    var i2, j2 := TrimmedCut(b, l);
    assert a != [] ==> i2 <= i < j2 && i2 < j <= j2 by {
      if a != [] { SliceEnds(l, i, j); }
    }
    assert b != [] ==> i <= i2 < j && i < j2 <= j by {
      if b != [] { SliceEnds(l, i2, j2); }
    }
  }

  /** The e-mail properties determine the result: only `raw.toLowerCase().trim()`
      has them all. */
  lemma NormalizedEmailUnique(e: string, raw: string)
    requires NormalizedEmail(e, raw)
    ensures e == Trim(ToLowerCase(raw))
  {
    LowerTrimmed(raw);
    TrimmedSame(e, Trim(ToLowerCase(raw)), ToLowerCase(raw));
  }

  /** Name, subject and message through `sanitizeString`; the e-mail lower-cased and trimmed. */
  function SanitizeForm(form: ContactForm, sanitize: string -> string): (r: Submission)
    ensures NormalizedEmail(r.email, form.email)
  {
    LowerTrimmed(form.email);
    Submission(sanitize(form.name), Trim(ToLowerCase(form.email)), sanitize(form.subject), sanitize(form.message))
  }

  /** What `POST` does once the rate check has answered `allowed`. */
  function Respond(allowed: bool, parsed: ParseOutcome, isEmail: string -> bool, sanitize: string -> string): (r: Handled)
    ensures r.response.status in {200, 400, 429, 500}
    ensures r.response.status == 429 <==> !allowed
    ensures r.logged.Some? ==> r.response == Response(200, SuccessBody(Some(SuccessMessage)))
  {
    if !allowed then
      Handled(Response(429, ErrorBody(TooManyRequests)), None)
    else
      match parsed
      case Unparseable =>
        Handled(Response(500, ErrorBody(ServerError)), None)
      case Parsed(body) =>
        match Validate(body, isEmail)
        case Failure(issues) =>
          Handled(Response(400, InvalidInput(InvalidInputError, Details(issues))), None)
        case Success(form) =>
          if form.honeypot != "" then
            // The honeypot branch: a bare success to confuse bots.
            Handled(Response(200, SuccessBody(None)), None)
          else
            Handled(Response(200, SuccessBody(Some(SuccessMessage))), Some(SanitizeForm(form, sanitize)))
  }

  /** `POST /api/contact` at time `now`, against the route's limiter. */
  method Post(limiter: Limiter, forwardedFor: Option<string>, realIp: Option<string>, now: int,
              parsed: ParseOutcome, isEmail: string -> bool, sanitize: string -> string) returns (h: Handled)
    requires limiter.Valid()
    modifies limiter
    ensures limiter.Valid()
    ensures var v := Step(old(limiter.entries), ClientKey(forwardedFor, realIp), now);
      limiter.entries == v.1 && h == Respond(v.0, parsed, isEmail, sanitize)
  {
    var key := ClientKey(forwardedFor, realIp);
    var allowed := limiter.Check(key, now);
    h := Respond(allowed, parsed, isEmail, sanitize);
  }

  /** `GET /api/contact`. */
  function Get(): (r: Response)
    ensures r.status == 405 && r.body == ErrorBody("Method not allowed")
  {
    Response(405, ErrorBody("Method not allowed"))
  }

  // ---- Properties of the decision chain ----

  /** The answer is 200 exactly for an allowed request whose body parses and
      validates. */
  lemma StatusSpec(allowed: bool, parsed: ParseOutcome, isEmail: string -> bool, sanitize: string -> string)
    ensures Respond(allowed, parsed, isEmail, sanitize).response.status == 200 <==>
      allowed && parsed.Parsed? && Validate(parsed.body, isEmail).Success?
  {
  }

  /** The rate check comes first: a denied key gets 429 whatever the body. */
  lemma DeniedWhateverTheBody(parsed: ParseOutcome, isEmail: string -> bool, sanitize: string -> string)
    ensures Respond(false, parsed, isEmail, sanitize) == Handled(Response(429, ErrorBody(TooManyRequests)), None)
  {
  }

  /** A body that cannot be parsed gets the generic 500, never the parse error. */
  lemma UnparseableIs500(isEmail: string -> bool, sanitize: string -> string)
    ensures Respond(true, Unparseable, isEmail, sanitize) == Handled(Response(500, ErrorBody(ServerError)), None)
  {
  }

  /** A rejected body gets 400 with one detail per issue, each naming the issue's
      field key and carrying its message. */
  lemma InvalidIs400(body: RawBody, isEmail: string -> bool, sanitize: string -> string)
    requires Validate(body, isEmail).Failure?
    ensures var r := Respond(true, Parsed(body), isEmail, sanitize).response;
      var issues := Validate(body, isEmail).error;
      r.status == 400 && r.body.InvalidInput? && r.body.error == InvalidInputError &&
      |r.body.details| == |issues| &&
      forall i :: 0 <= i < |issues| ==>
        r.body.details[i].message == issues[i].message &&
        (issues[i].path.Some? ==> r.body.details[i].field == Some(issues[i].path.value.Key()))
  {
  }

  /** The honeypot's bare success is unreachable: the schema already rejects a
      non-empty honeypot, so no request ever gets it. */
  lemma NoFakeSuccess(allowed: bool, parsed: ParseOutcome, isEmail: string -> bool, sanitize: string -> string)
    ensures Respond(allowed, parsed, isEmail, sanitize).response != Response(200, SuccessBody(None))
  {
    if allowed && parsed.Parsed? && Validate(parsed.body, isEmail).Success? {
      AcceptedHoneypotEmpty(parsed.body, isEmail);
    }
  }

  /** A filled honeypot is answered with 400 and a detail for the honeypot field. */
  lemma FilledHoneypotIs400(body: RawBody, isEmail: string -> bool, sanitize: string -> string)
    requires body.Object? && body.honeypot.Text? && body.honeypot.s != ""
    ensures var r := Respond(true, Parsed(body), isEmail, sanitize).response;
      r.status == 400 && r.body.InvalidInput? &&
      exists i :: 0 <= i < |r.body.details| && r.body.details[i].field == Some("honeypot")
  {
    IssuesNameFailingFields(body, isEmail, Honeypot);
    var issues := Validate(body, isEmail).error;
    var i :| 0 <= i < |issues| && issues[i].path == Some(Honeypot);
    assert Details(issues)[i].field == Some("honeypot");
  }

  /** An allowed, valid body gets the fixed success message, and the logged
      submission is the sanitised form. */
  lemma ValidIs200(body: RawBody, isEmail: string -> bool, sanitize: string -> string)
    requires Validate(body, isEmail).Success?
    ensures var form := Validate(body, isEmail).value;
      Respond(true, Parsed(body), isEmail, sanitize) ==
        Handled(Response(200, SuccessBody(Some(SuccessMessage))),
                Some(Submission(sanitize(form.name), Trim(ToLowerCase(form.email)), sanitize(form.subject), sanitize(form.message))))
  {
    AcceptedHoneypotEmpty(body, isEmail);
    var form := Validate(body, isEmail).value;
    assert Respond(true, Parsed(body), isEmail, sanitize) ==
      Handled(Response(200, SuccessBody(Some(SuccessMessage))), Some(SanitizeForm(form, sanitize)));
  }

  /** The response never depends on `sanitizeString`, only what is logged does. */
  lemma ResponseIgnoresSanitizer(allowed: bool, parsed: ParseOutcome, isEmail: string -> bool,
                                 s1: string -> string, s2: string -> string)
    ensures Respond(allowed, parsed, isEmail, s1).response == Respond(allowed, parsed, isEmail, s2).response
  {
  }

  /** The quota is spent before the body is read: an allowed request adds one
      to its key's count in the window, so even a request answered 400 changes
      the limiter's state. */
  lemma QuotaSpentBeforeParsing(m: map<string, Record>, forwardedFor: Option<string>, realIp: Option<string>,
                                now: int, p1: ParseOutcome, isEmail: string -> bool, sanitize: string -> string)
    requires WellFormed(m)
    ensures var key := ClientKey(forwardedFor, realIp);
      var v := Step(m, key, now);
      v.0 ==> key in v.1 && v.1[key].count == (if key in m && InWindow(m[key], now) then m[key].count + 1 else 1)
    ensures var v := Step(m, ClientKey(forwardedFor, realIp), now);
      Respond(v.0, p1, isEmail, sanitize).response.status == 400 ==> v.1 != m
  {
  }

  /** An allowed object body whose five fields all meet their constraints is
      answered with the success message. */
  lemma AllFieldsValidIs200(body: RawBody, isEmail: string -> bool, sanitize: string -> string)
    requires body.Object?
    requires RawValid(Name, body.name, isEmail) && RawValid(Email, body.email, isEmail)
    requires RawValid(Subject, body.subject, isEmail) && RawValid(Message, body.message, isEmail)
    requires RawValid(Honeypot, body.honeypot, isEmail)
    ensures Respond(true, Parsed(body), isEmail, sanitize).response == Response(200, SuccessBody(Some(SuccessMessage)))
  {
    ValidateAcceptsExactlyValid(body, isEmail);
    ValidIs200(body, isEmail, sanitize);
  }

  lemma ShortNameValid(isEmail: string -> bool)
    ensures RawValid(Name, Text("Al"), isEmail)
  {
    NameIssuesSpec("Al");
  }

  lemma ShortEmailValid(isEmail: string -> bool)
    requires isEmail("a@b.co")
    ensures RawValid(Email, Text("a@b.co"), isEmail)
  {
    Utf16LengthOfBmp("a@b.co");
  }

  lemma ShortSubjectValid(isEmail: string -> bool)
    ensures RawValid(Subject, Text("Hi there"), isEmail)
  {
    Utf16LengthOfBmp("Hi there");
  }

  lemma ShortMessageValid(isEmail: string -> bool)
    ensures RawValid(Message, Text("1234567890"), isEmail)
  {
    Utf16LengthOfBmp("1234567890");
  }

  /** The body `{name: "Al", email: "a@b.co", subject: "Hi there",
      message: "1234567890", honeypot: ""}` succeeds when the address passes the
      e-mail check. */
  lemma ShortestFieldsAccepted(isEmail: string -> bool, sanitize: string -> string)
    requires isEmail("a@b.co")
    ensures Respond(true, Parsed(Object(Text("Al"), Text("a@b.co"), Text("Hi there"), Text("1234567890"), Text(""))),
                    isEmail, sanitize).response == Response(200, SuccessBody(Some(SuccessMessage)))
  {
    ShortNameValid(isEmail);
    ShortEmailValid(isEmail);
    ShortSubjectValid(isEmail);
    ShortMessageValid(isEmail);
    AllFieldsValidIs200(Object(Text("Al"), Text("a@b.co"), Text("Hi there"), Text("1234567890"), Text("")), isEmail, sanitize);
  }

  /** The same body with `honeypot: "spam"` is rejected with 400, not answered
      with the honeypot's bare success. */
  lemma FilledHoneypotScenario(isEmail: string -> bool, sanitize: string -> string)
    ensures Respond(true, Parsed(Object(Text("Al"), Text("a@b.co"), Text("Hi there"), Text("1234567890"), Text("spam"))),
                    isEmail, sanitize).response.status == 400
  {
    FilledHoneypotIs400(Object(Text("Al"), Text("a@b.co"), Text("Hi there"), Text("1234567890"), Text("spam")), isEmail, sanitize);
  }

  // ---- The honeypot as evidently intended ----

  /** `POST` once the schema lets any string through as the honeypot: the
      route's own honeypot check then decides, and a filled trap gets the bare
      success. */
  function RespondIntended(allowed: bool, parsed: ParseOutcome, isEmail: string -> bool,
                           sanitize: string -> string): (r: Handled)
    ensures r.response.status in {200, 400, 429, 500}
    ensures r.response.status == 429 <==> !allowed
    ensures r.logged.Some? ==> r.response == Response(200, SuccessBody(Some(SuccessMessage)))
  {
    if !allowed || parsed.Unparseable? then
      Respond(allowed, parsed, isEmail, sanitize)
    else
      match ValidateTrapAsString(parsed.body, isEmail)
      case Failure(issues) =>
        Handled(Response(400, InvalidInput(InvalidInputError, Details(issues))), None)
      case Success(form) =>
        if form.honeypot != "" then
          Handled(Response(200, SuccessBody(None)), None)
        else
          Handled(Response(200, SuccessBody(Some(SuccessMessage))), Some(SanitizeForm(form, sanitize)))
  }

  /** A filled trap on an otherwise valid body is answered 200 with the bare
      success, and no submission is logged. (The security warning the route
      writes to the console at that point is not part of this model.) */
  lemma TrapGetsFakeSuccess(body: RawBody, isEmail: string -> bool, sanitize: string -> string)
    requires body.Object? && body.honeypot.Text? && body.honeypot.s != ""
    requires RawValid(Name, body.name, isEmail) && RawValid(Email, body.email, isEmail)
    requires RawValid(Subject, body.subject, isEmail) && RawValid(Message, body.message, isEmail)
    ensures RespondIntended(true, Parsed(body), isEmail, sanitize) == Handled(Response(200, SuccessBody(None)), None)
  {
    var cleared := body.(honeypot := Text(""));
    ValidateAcceptsExactlyValid(cleared, isEmail);
  }

  /** Every request that does not fill the trap is answered exactly as before. */
  lemma IntendedAgreesWithoutTrap(allowed: bool, parsed: ParseOutcome, isEmail: string -> bool,
                                  sanitize: string -> string)
    requires !(parsed.Parsed? && parsed.body.Object? && parsed.body.honeypot.Text? && parsed.body.honeypot.s != "")
    ensures RespondIntended(allowed, parsed, isEmail, sanitize) == Respond(allowed, parsed, isEmail, sanitize)
  {
    if allowed && parsed.Parsed? && parsed.body.Object? && parsed.body.honeypot.Text? {
      assert parsed.body.(honeypot := Text("")) == parsed.body;
    }
  }

  /** The scenario body with `honeypot: "spam"` gets the bare success once the
      schema stops rejecting the trap. */
  lemma FilledHoneypotScenarioIntended(isEmail: string -> bool, sanitize: string -> string)
    requires isEmail("a@b.co")
    ensures RespondIntended(true, Parsed(Object(Text("Al"), Text("a@b.co"), Text("Hi there"), Text("1234567890"), Text("spam"))),
                            isEmail, sanitize).response == Response(200, SuccessBody(None))
  {
    ShortNameValid(isEmail);
    ShortEmailValid(isEmail);
    ShortSubjectValid(isEmail);
    ShortMessageValid(isEmail);
    TrapGetsFakeSuccess(Object(Text("Al"), Text("a@b.co"), Text("Hi there"), Text("1234567890"), Text("spam")), isEmail, sanitize);
  }
}
