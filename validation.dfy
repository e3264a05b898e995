/** The contact form schema: five string fields, each with its own checks.
    As in zod, the checks of a string field do not stop at the first failure:
    every failing check contributes one issue, in the order the schema declares
    them, and the fields are visited in the schema's key order. Lengths are
    JavaScript lengths, in UTF-16 code units. Zod's e-mail syntax test is not
    modelled; it is the parameter `isEmail`. */
module Validation {
  import opened Wrappers
  import opened JsText

  datatype Field = Name | Email | Subject | Message | Honeypot {
    /** The key the field has in the JSON body and in an issue's path. */
    function Key(): string
    {
      match this
      case Name => "name"
      case Email => "email"
      case Subject => "subject"
      case Message => "message"
      case Honeypot => "honeypot"
    }
  }

  /** What the parsed JSON body holds under one field key. */
  datatype RawField = Text(s: string) | Absent | NonString(received: string)

  /** The parsed JSON body: an object with the five keys (others are stripped),
      or some other JSON value, named by its type. */
  datatype RawBody =
    | Object(name: RawField, email: RawField, subject: RawField, message: RawField, honeypot: RawField)
    | NotObject(received: string)

  /** A validation issue: the first element of its path (none for the body
      itself) and its message. */
  datatype Issue = Issue(path: Option<Field>, message: string)

  /** The schema's output type. */
  datatype ContactForm = ContactForm(name: string, email: string, subject: string, message: string, honeypot: string)

  const NameMin := 2
  const NameMax := 100
  const EmailMax := 254
  const SubjectMin := 5
  const SubjectMax := 200
  const MessageMin := 10
  const MessageMax := 10000

  /** One character of the class `[a-zA-Z\s'-]`. */
  predicate NameChar(c: char)
  {
    'A' <= c <= 'Z' || 'a' <= c <= 'z' || IsWhitespace(c) || c == '\'' || c == '-'
  }

  /** The regular expression `^[a-zA-Z\s'-]+$`: one or more characters of the class. */
  predicate MatchesNamePattern(s: string)
  {
    |s| > 0 && forall i :: 0 <= i < |s| ==> NameChar(s[i])
  }

  /** One check: no issue when it holds, one issue for `f` otherwise. */
  function Check(f: Field, holds: bool, message: string): (r: seq<Issue>)
    ensures holds <==> r == []
    ensures !holds ==> r == [Issue(Some(f), message)]
  {
    if holds then [] else [Issue(Some(f), message)]
  }

  function NameIssues(s: string): (r: seq<Issue>)
    ensures forall i :: 0 <= i < |r| ==> r[i].path == Some(Name)
  {
    Check(Name, Utf16Length(s) >= NameMin, "Name must be at least 2 characters") +
    Check(Name, Utf16Length(s) <= NameMax, "Name must be less than 100 characters") +
    Check(Name, MatchesNamePattern(s), "Name contains invalid characters")
  }

  function EmailIssues(s: string, isEmail: string -> bool): (r: seq<Issue>)
    ensures forall i :: 0 <= i < |r| ==> r[i].path == Some(Email)
  {
    Check(Email, isEmail(s), "Invalid email address") +
    Check(Email, Utf16Length(s) <= EmailMax, "Email is too long")
  }

  function SubjectIssues(s: string): (r: seq<Issue>)
    ensures forall i :: 0 <= i < |r| ==> r[i].path == Some(Subject)
  {
    Check(Subject, Utf16Length(s) >= SubjectMin, "Subject must be at least 5 characters") +
    Check(Subject, Utf16Length(s) <= SubjectMax, "Subject must be less than 200 characters")
  }

  function MessageIssues(s: string): (r: seq<Issue>)
    ensures forall i :: 0 <= i < |r| ==> r[i].path == Some(Message)
  {
    Check(Message, Utf16Length(s) >= MessageMin, "Message must be at least 10 characters") +
    Check(Message, Utf16Length(s) <= MessageMax, "Message must be less than 10,000 characters")
  }

  /** `z.string().max(0)` with zod's default message. */
  function HoneypotIssues(s: string): (r: seq<Issue>)
    ensures forall i :: 0 <= i < |r| ==> r[i].path == Some(Honeypot)
  {
    Check(Honeypot, Utf16Length(s) <= 0, "String must contain at most 0 character(s)")
  }

  function TextIssues(f: Field, s: string, isEmail: string -> bool): (r: seq<Issue>)
    ensures forall i :: 0 <= i < |r| ==> r[i].path == Some(f)
  {
    match f
    case Name => NameIssues(s)
    case Email => EmailIssues(s, isEmail)
    case Subject => SubjectIssues(s)
    case Message => MessageIssues(s)
    case Honeypot => HoneypotIssues(s)
  }

  /** The issues of one field: a type issue when it is not a string, else its checks. */
  function FieldIssues(f: Field, raw: RawField, isEmail: string -> bool): (r: seq<Issue>)
    ensures forall i :: 0 <= i < |r| ==> r[i].path == Some(f)
  {
    match raw
    case Absent => [Issue(Some(f), "Required")]
    case NonString(received) => [Issue(Some(f), "Expected string, received " + received)]
    case Text(s) => TextIssues(f, s, isEmail)
  }

  /** `contactFormSchema.safeParse(body)`. */
  function Validate(body: RawBody, isEmail: string -> bool): (r: Result<ContactForm, seq<Issue>>)
    ensures body.NotObject? ==> r.Failure?
    ensures r.Failure? ==> r.error != []
  {
    match body
    case NotObject(received) => Failure([Issue(None, "Expected object, received " + received)])
    case Object(name, email, subject, message, honeypot) =>
      var issues :=
        FieldIssues(Name, name, isEmail) + FieldIssues(Email, email, isEmail) +
        FieldIssues(Subject, subject, isEmail) + FieldIssues(Message, message, isEmail) +
        FieldIssues(Honeypot, honeypot, isEmail);
      if issues == [] && name.Text? && email.Text? && subject.Text? && message.Text? && honeypot.Text? then
        Success(ContactForm(name.s, email.s, subject.s, message.s, honeypot.s))
      else
        Failure(issues)
  }

  /** The schema with `honeypot: z.string()` in place of `z.string().max(0)`: the
      trap field only has to be a string, and its value is passed on. */
  function ValidateTrapAsString(body: RawBody, isEmail: string -> bool): (r: Result<ContactForm, seq<Issue>>)
    ensures r.Success? <==>
      (body.Object? &&
       RawValid(Name, body.name, isEmail) && RawValid(Email, body.email, isEmail) &&
       RawValid(Subject, body.subject, isEmail) && RawValid(Message, body.message, isEmail) &&
       body.honeypot.Text?)
    ensures r.Success? ==>
      r.value == ContactForm(body.name.s, body.email.s, body.subject.s, body.message.s, body.honeypot.s)
  {
    if body.Object? && body.honeypot.Text? then
      ValidateAcceptsExactlyValid(body.(honeypot := Text("")), isEmail);
      match Validate(body.(honeypot := Text("")), isEmail)
      case Success(form) => Success(form.(honeypot := body.honeypot.s))
      case Failure(issues) => Failure(issues)
    else
      ValidateAcceptsExactlyValid(body, isEmail);
      Validate(body, isEmail)
  }

  // ---- The constraints each field must meet, stated on their own ----

  /** 2 to 100 characters, all letters A-Z/a-z, whitespace, apostrophes or hyphens. */
  predicate NameValid(s: string)
  {
    NameMin <= |s| <= NameMax && forall i :: 0 <= i < |s| ==> NameChar(s[i])
  }

  predicate EmailValid(s: string, isEmail: string -> bool)
  {
    isEmail(s) && Utf16Length(s) <= EmailMax
  }

  predicate SubjectValid(s: string)
  {
    SubjectMin <= Utf16Length(s) <= SubjectMax
  }

  predicate MessageValid(s: string)
  {
    MessageMin <= Utf16Length(s) <= MessageMax
  }

  predicate HoneypotValid(s: string)
  {
    s == []
  }

  predicate FieldValid(f: Field, s: string, isEmail: string -> bool)
  {
    match f
    case Name => NameValid(s)
    case Email => EmailValid(s, isEmail)
    case Subject => SubjectValid(s)
    case Message => MessageValid(s)
    case Honeypot => HoneypotValid(s)
  }

  predicate RawValid(f: Field, raw: RawField, isEmail: string -> bool)
  {
    raw.Text? && FieldValid(f, raw.s, isEmail)
  }

  /** Every name character is in the Basic Multilingual Plane, so its JavaScript
      length is its number of characters; `max(100)` admits exactly 100. */
  lemma NameIssuesSpec(s: string)
    ensures NameIssues(s) == [] <==> NameValid(s)
  {
    if MatchesNamePattern(s) {
      Utf16LengthOfBmp(s);
    }
  }

  lemma HoneypotIssuesSpec(s: string)
    ensures HoneypotIssues(s) == [] <==> HoneypotValid(s)
  {
    if s != [] {
      assert Utf16Length(s) >= |s|;
    }
  }

  /** A field raises no issue exactly when it is a string meeting its constraint. */
  lemma FieldIssuesSpec(f: Field, raw: RawField, isEmail: string -> bool)
    ensures FieldIssues(f, raw, isEmail) == [] <==> RawValid(f, raw, isEmail)
  {
    if raw.Text? {
      match f
      case Name => NameIssuesSpec(raw.s);
      case Honeypot => HoneypotIssuesSpec(raw.s);
      case _ =>
    }
  }

  /** The body is accepted exactly when it is an object whose five fields all meet
      their constraints, and the accepted form carries the fields unchanged. */
  lemma ValidateAcceptsExactlyValid(body: RawBody, isEmail: string -> bool)
    ensures Validate(body, isEmail).Success? <==>
      (body.Object? &&
       RawValid(Name, body.name, isEmail) && RawValid(Email, body.email, isEmail) &&
       RawValid(Subject, body.subject, isEmail) && RawValid(Message, body.message, isEmail) &&
       RawValid(Honeypot, body.honeypot, isEmail))
    ensures Validate(body, isEmail).Success? ==>
      Validate(body, isEmail).value ==
        ContactForm(body.name.s, body.email.s, body.subject.s, body.message.s, body.honeypot.s)
  {
    if body.Object? {
      FieldIssuesSpec(Name, body.name, isEmail);
      FieldIssuesSpec(Email, body.email, isEmail);
      FieldIssuesSpec(Subject, body.subject, isEmail);
      FieldIssuesSpec(Message, body.message, isEmail);
      FieldIssuesSpec(Honeypot, body.honeypot, isEmail);
    }
  }

  /** An accepted form always has an empty honeypot. */
  lemma AcceptedHoneypotEmpty(body: RawBody, isEmail: string -> bool)
    requires Validate(body, isEmail).Success?
    ensures Validate(body, isEmail).value.honeypot == ""
  {
    ValidateAcceptsExactlyValid(body, isEmail);
    assert RawValid(Honeypot, body.honeypot, isEmail);
  }

  /** The raw value an object body holds for `f`. */
  function RawOf(body: RawBody, f: Field): RawField
    requires body.Object?
  {
    match f
    case Name => body.name
    case Email => body.email
    case Subject => body.subject
    case Message => body.message
    case Honeypot => body.honeypot
  }

  /** Some issue in `issues` is tagged with `f`. */
  predicate Mentions(issues: seq<Issue>, f: Field)
  {
    exists i :: 0 <= i < |issues| && issues[i].path == Some(f)
  }

  lemma MentionsAppend(a: seq<Issue>, b: seq<Issue>, f: Field)
    ensures Mentions(a + b, f) <==> Mentions(a, f) || Mentions(b, f)
  {
    if Mentions(a, f) {
      var i :| 0 <= i < |a| && a[i].path == Some(f);
      assert (a + b)[i] == a[i];
    }
    if Mentions(b, f) {
      var i :| 0 <= i < |b| && b[i].path == Some(f);
      assert (a + b)[|a| + i] == b[i];
    }
    if Mentions(a + b, f) {
      var i :| 0 <= i < |a + b| && (a + b)[i].path == Some(f);
      if i < |a| {
        assert (a + b)[i] == a[i];
      } else {
        assert (a + b)[i] == b[i - |a|];
      }
    }
  }

  /** A field's own block of issues mentions `f` exactly when it is `f`'s block
      and `f` fails. */
  lemma FieldMentions(g: Field, raw: RawField, isEmail: string -> bool, f: Field)
    ensures Mentions(FieldIssues(g, raw, isEmail), f) <==> g == f && !RawValid(g, raw, isEmail)
  {
    var r := FieldIssues(g, raw, isEmail);
    FieldIssuesSpec(g, raw, isEmail);
    if r != [] {
      assert r[0].path == Some(g);
    }
  }

  /** Issues are reported for every failing field, not just the first one, and
      only for failing fields. */
  lemma {:induction false} IssuesNameFailingFields(body: RawBody, isEmail: string -> bool, f: Field)
    requires body.Object?
    ensures !RawValid(f, RawOf(body, f), isEmail) <==>
      (Validate(body, isEmail).Failure? && Mentions(Validate(body, isEmail).error, f))
  {
    var n := FieldIssues(Name, body.name, isEmail);
    var e := FieldIssues(Email, body.email, isEmail);
    var su := FieldIssues(Subject, body.subject, isEmail);
    var me := FieldIssues(Message, body.message, isEmail);
    var h := FieldIssues(Honeypot, body.honeypot, isEmail);
    MentionsAppend(n + e + su + me, h, f);
    MentionsAppend(n + e + su, me, f);
    MentionsAppend(n + e, su, f);
    MentionsAppend(n, e, f);
    FieldMentions(Name, body.name, isEmail, f);
    FieldMentions(Email, body.email, isEmail, f);
    FieldMentions(Subject, body.subject, isEmail, f);
    FieldMentions(Message, body.message, isEmail, f);
    FieldMentions(Honeypot, body.honeypot, isEmail, f);
    ValidateAcceptsExactlyValid(body, isEmail);
  }

  // ---- Where the length bounds lie ----

  lemma NameMinInclusive()
    ensures NameIssues("Al") == [] && NameIssues("A") != []
  {
    NameIssuesSpec("Al");
    NameIssuesSpec("A");
  }

  /** For text in the Basic Multilingual Plane the subject bounds are plain
      character counts, both ends included. */
  lemma SubjectBoundsOnBmp(s: string)
    requires forall i :: 0 <= i < |s| ==> s[i] < '\U{10000}'
    ensures SubjectValid(s) <==> 5 <= |s| <= 200
  {
    Utf16LengthOfBmp(s);
  }

  /** Likewise for the message: 10 to 10000 characters, both ends included. */
  lemma MessageBoundsOnBmp(s: string)
    requires forall i :: 0 <= i < |s| ==> s[i] < '\U{10000}'
    ensures MessageValid(s) <==> 10 <= |s| <= 10000
  {
    Utf16LengthOfBmp(s);
  }

  // ---- Consequences of the name rule ----

  /** Two spaces are a valid name: `\s` counts as a name character. */
  lemma BlankNameAccepted()
    ensures NameIssues("  ") == []
  {
    NameIssuesSpec("  ");
  }

  /** An accented letter is outside `[a-zA-Z]`. */
  lemma AccentedNameRejected()
    ensures NameIssues("Zoé") == [Issue(Some(Name), "Name contains invalid characters")]
  {
    assert !NameChar("Zoé"[2]);
  }
}
