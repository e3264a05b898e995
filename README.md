# Portfolio contact endpoint, mailer and content catalogue in Dafny

This project models the server-side core of a personal portfolio site:

- **Rate limiter** (`RateLimit`, `rate_limit.dfy`). A fixed one-hour window per client key allows at most three requests. It is kept in a process-wide map from key to `{count, resetTime}`. `Limiter` is a class whose `entries` map is updated in place by `Check`. The pure function `Step` specifies `Check`, and the lemmas about `Step` and `Replay` (a run of requests) bound the allowed requests per window.
- **Contact form schema** (`Validation`, `validation.dfy`). There are five string fields, each with zod-style checks that do not stop at the first failure. Every failing check yields one issue, in declaration order. Lengths are JavaScript lengths, in UTF-16 code units (`JsText`, `js_text.dfy`, which also models `trim` and the `\s` whitespace class).
- **`/api/contact` route** (`ContactRoute`, `contact_route.dfy`). `POST` derives the client key from the headers, spends one unit of quota, and then answers 500 for an unreadable body or 400 with per-issue details for an invalid one. Otherwise it logs the sanitised submission and answers 200. `GET` answers 405. `Post` is a method that takes the limiter. `Respond` is the decision once the quota check has answered.
- **Mailer** (`Email`, `email.dfy`). This covers the HTML escaper and its inverse, the HTML and plain-text templates (as sequences of fixed text and interpolation slots), `sendContactEmail` with the mail client as a function parameter, `sendTestEmail`, and how the client's configuration comes out of the parsed environment.
- **Project and skill catalogues** (`Projects`, `projects.dfy`; `Skills`, `skills.dfy`).
  - The shipped data is modelled field by field, with dates in epoch milliseconds. Long strings are written as concatenations of short literals that spell the same text.
  - The getters are modelled on a `Catalogue` class holding the shared project array, because `getAllProjects` sorts it in place.
  - The sort is stable, newest first. It is specified by `SortByDate`, an insertion sort on sequences that is proved to be the only stable newest-first permutation. `SortInPlace` is the array algorithm proved equal to it.
  - The skill lookup returns the first group of the category.

`sanitizeString`, the e-mail address syntax check and the mail client are code outside this model. Each is a function-valued parameter (`sanitize`, `isEmail`, `provider`). The clock is a parameter (`now`, in milliseconds), and so is the formatted "Sent on" date (`sentOn`).

## Model

| member | source | states |
|---|---|---|
| JsText.Utf16Length | lib/validation.ts:9-10 | a string's JavaScript length lies between its number of characters and twice that |
| JsText.Utf16LengthOfBmp | lib/validation.ts:9-11 | for text in the Basic Multilingual Plane the JavaScript length is the character count |
| JsText.Trim | app/api/contact/route.ts:71 | the trimmed e-mail is a contiguous slice of the input with only whitespace cut from either end, and it neither begins nor ends with whitespace |
| JsText.ToLowerCase | app/api/contact/route.ts:71 | lower-casing keeps the length and maps each character independently, A-Z to a-z |
| RateLimit.Step | app/api/contact/route.ts:11-26 | one check never removes a key and never touches another client's record; a denial leaves the map unchanged; every stored count stays within 1..3 |
| RateLimit.FreshKeyAllowed | app/api/contact/route.ts:15-17 | an unseen key is allowed and opens a window `{1, now + 3600000}` |
| RateLimit.ExpiredWindowResets | app/api/contact/route.ts:15-17 | after `resetTime` the request is allowed and a fresh window with count 1 replaces the old one |
| RateLimit.BoundaryIsInsideWindow | app/api/contact/route.ts:15-21 | at exactly `now == resetTime` a full window still denies (the reset test is strict) |
| RateLimit.OpenWindowCounts | app/api/contact/route.ts:20-25 | inside an open window a request is allowed iff fewer than 3 were counted, and an allowed one increments the count without moving `resetTime` |
| RateLimit.Replay | app/api/contact/route.ts:6-26 | over any run of requests the map only gains keys and keeps every count within 1..3 |
| RateLimit.OpenWindowBound | app/api/contact/route.ts:20-25 | while a key's window stays open, the requests allowed for it number at most 3 minus its count, and its record ends at count plus allowed |
| RateLimit.AtMostMaxPerWindow | app/api/contact/route.ts:8-26 | from the request that opens a window up to its `resetTime`, at most 3 requests of that key are allowed, whatever other keys do |
| RateLimit.FullWindowDenies | app/api/contact/route.ts:20-22 | once 3 requests were allowed in an open window, a further one is denied and changes nothing |
| RateLimit.Limiter.constructor | app/api/contact/route.ts:6 | the limiter starts with an empty map |
| RateLimit.Limiter.Check | app/api/contact/route.ts:11-26 | `checkRateLimit` answers and updates the map exactly as `Step` does, keeping the counts within 1..3 |
| Validation.NameIssues | lib/validation.ts:7-11 | every issue the name raises is reported under `name` |
| Validation.EmailIssues | lib/validation.ts:13-16 | every issue the e-mail raises is reported under `email` |
| Validation.SubjectIssues | lib/validation.ts:18-21 | every issue the subject raises is reported under `subject` |
| Validation.MessageIssues | lib/validation.ts:23-26 | every issue the message raises is reported under `message` |
| Validation.HoneypotIssues | lib/validation.ts:28 | every issue the honeypot raises is reported under `honeypot` |
| Validation.FieldIssues | lib/validation.ts:6-28 | a missing or non-string field, or a failing check, is reported under that field's key |
| Validation.NameIssuesSpec | lib/validation.ts:7-11 | the name raises no issue iff it has 2 to 100 characters (100 included), all letters A-Z/a-z, whitespace, `'` or `-` |
| Validation.HoneypotIssuesSpec | lib/validation.ts:28 | the honeypot raises no issue iff it is empty |
| Validation.FieldIssuesSpec | lib/validation.ts:6-28 | a field raises no issue iff it is a string meeting its own constraint |
| Validation.Validate | lib/validation.ts:6-29 | a non-object body is rejected, and every rejection reports at least one issue |
| Validation.ValidateTrapAsString | lib/validation.ts:28 | with the trap only required to be a string, the body is accepted exactly when it is an object whose honeypot is a string and whose other four fields meet their constraints, and the accepted form carries all five values, the trap's included |
| Validation.ValidateAcceptsExactlyValid | lib/validation.ts:6-29 | the body is accepted iff it is an object whose five fields all meet their constraints, and the accepted form carries the field values unchanged |
| Validation.AcceptedHoneypotEmpty | lib/validation.ts:28 | every accepted form has an empty honeypot |
| Validation.FieldMentions | lib/validation.ts:6-28 | a field's issues mention a key only if it is that field's own, and only when the field is invalid |
| Validation.IssuesNameFailingFields | lib/validation.ts:6-29 | for an object body, a field is invalid iff validation fails with an issue under that field's key |
| Validation.NameMinInclusive | lib/validation.ts:9 | a two-letter name passes and a one-letter name fails |
| Validation.SubjectBoundsOnBmp | lib/validation.ts:20-21 | for Basic Multilingual Plane text the subject is valid iff it has 5 to 200 characters, both ends included |
| Validation.MessageBoundsOnBmp | lib/validation.ts:25-26 | for Basic Multilingual Plane text the message is valid iff it has 10 to 10000 characters, both ends included |
| Validation.BlankNameAccepted | lib/validation.ts:11 | a name of two spaces passes, since `\s` is in the allowed class |
| Validation.AccentedNameRejected | lib/validation.ts:11 | "Zoé" fails with exactly the invalid-characters issue |
| Email.EscapeChar | lib/email.ts:237-244 | the five special characters become entities starting with `&`, and every other character is left alone |
| Email.EscapeHtml | lib/email.ts:236-245 | escaping never shortens the text |
| Email.EscapeTable | lib/email.ts:237-244 | `& < > " '` map to `&amp; &lt; &gt; &quot; &#39;` and nothing else changes |
| Email.EscapeHtmlAppend | lib/email.ts:244 | escaping works character by character: the escape of a concatenation is the concatenation of escapes |
| Email.EscapeHtmlIdentity | lib/email.ts:244 | text without special characters comes out unchanged |
| Email.EscapeHtmlNoUnsafe | lib/email.ts:236-245 | escaped text contains no `<`, `>`, `"` or `'` |
| Email.EscapeHtmlAmpersands | lib/email.ts:236-245 | every `&` in escaped text begins one of the five entities |
| Email.EscapeHtmlNotIdempotent | lib/email.ts:236-245 | escaping twice double-escapes: `&` becomes `&amp;amp;` |
| Email.EscapeRoundTrip | lib/email.ts:236-245 | decoding the five entities recovers the original text from its escape, for every text |
| Email.RenderEscapesFields | lib/email.ts:168-192 | the HTML body interpolates the escaped name, e-mail, subject and message, in every slot |
| Email.GenerateContactEmailHtml | lib/email.ts:81-209 | the number of `<`, `>`, `"` and `'` in the HTML e-mail is fixed by the template and the timestamp, whatever the submission holds |
| Email.TextLayout | lib/email.ts:214-231 | the text body is the template's fixed lines with name, e-mail, subject, message and date in order |
| Email.GenerateContactEmailText | lib/email.ts:214-231 | the trimmed text body contains each of the four fields unescaped |
| Email.Decimal | lib/email.ts:52 | the decimal rendering of a timestamp is a non-empty run of digits |
| Email.DecimalRoundTrip | lib/email.ts:52 | reading the digits back gives the timestamp |
| Email.EntityRefId | lib/email.ts:52 | the reference id is `contact-` followed by the digits of the send time |
| Email.SendContactEmail | lib/email.ts:20-76 | a request is sent iff the client exists and both addresses are non-empty; it goes from EMAIL_FROM to EMAIL_TO under `Portfolio Contact: ` + subject, replying to the sender; the result is success iff the client delivered it |
| Email.NoClientNoSend | lib/email.ts:22-30 | without a client nothing is sent, and the result is the development failure |
| Email.NoAddressNoSend | lib/email.ts:32-38 | with a client but a missing or empty address nothing is sent, and the result is the address failure |
| Email.SendOutcome | lib/email.ts:44-75 | a sent request's result carries the client's id, or its error message (or a fixed fallback when that is empty), or the thrown error's message |
| Email.SendTestEmail | lib/email.ts:251-258 | the test send behaves as an ordinary send of the fixed test submission: it replies to test@example.com under the test subject |
| Email.ParseEnv | lib/env.ts:3-19 | the parsed environment holds only declared keys: every declared key that is present, with its value, and nothing else except `NODE_ENV`, which defaults to "development" when absent and is always present |
| Email.ConfigAsWritten | lib/email.ts:6 | as written, the client exists exactly when `RESEND_API_KEY` is present and non-empty; the sender and recipient are set exactly when their keys are present |
| Email.ConfigFromEnv | lib/env.ts:15 | the corrected configuration has a client iff EMAIL_API_KEY is set and non-empty |
| Email.ResendKeyNeverSeen | lib/email.ts:6 | as written, no process environment yields a client, so no e-mail is ever sent |
| Email.DeclaredKeyEnablesSending | lib/email.ts:6 | read from the declared key, a deployment that sets the key and both addresses does send |
| ContactRoute.ClientKey | app/api/contact/route.ts:31-33 | the key is a non-empty `x-forwarded-for`, else a non-empty `x-real-ip`, else "anonymous" |
| ContactRoute.Details | app/api/contact/route.ts:50-53 | one detail per issue, in order, each with the issue's message and first path key |
| ContactRoute.Post | app/api/contact/route.ts:28-122 | the limiter is updated exactly as one rate check on the derived key, and the answer is the decision chain applied to that check's verdict |
| ContactRoute.Get | app/api/contact/route.ts:125-130 | GET answers 405 "Method not allowed" |
| ContactRoute.SanitizeForm | app/api/contact/route.ts:69-74 | the stored e-mail is a slice of the lower-cased submitted one with only whitespace cut from its ends; it begins and ends on non-whitespace, is no longer than the submitted one and holds no A-Z letter (the three `sanitizeString` fields are stated by ValidIs200) |
| ContactRoute.NormalizedEmailUnique | app/api/contact/route.ts:71 | those e-mail properties determine the result: only `email.toLowerCase().trim()` has them all |
| ContactRoute.Respond | app/api/contact/route.ts:35-121 | the status is one of 200, 400, 429, 500; it is 429 exactly when the quota is spent; a submission is logged only with the 200 success message |
| ContactRoute.StatusSpec | app/api/contact/route.ts:28-122 | the status is 200 exactly when the request is allowed and its body parses and validates |
| ContactRoute.DeniedWhateverTheBody | app/api/contact/route.ts:35-40 | a denied request gets 429 whatever its body, and nothing is logged |
| ContactRoute.UnparseableIs500 | app/api/contact/route.ts:114-121 | an unreadable body gets 500 with the generic failure message |
| ContactRoute.InvalidIs400 | app/api/contact/route.ts:46-57 | an invalid body gets 400 "Invalid input" with one detail per validation issue carrying its message and field key |
| ContactRoute.NoFakeSuccess | app/api/contact/route.ts:62-66 | no request ever receives the honeypot's bare success |
| ContactRoute.FilledHoneypotIs400 | app/api/contact/route.ts:46-66 | a filled honeypot is answered 400 with a detail under `honeypot` |
| ContactRoute.ValidIs200 | app/api/contact/route.ts:68-113 | a valid body gets the fixed success message and logs the sanitised submission, with the e-mail lower-cased and trimmed |
| ContactRoute.ResponseIgnoresSanitizer | app/api/contact/route.ts:68-113 | the response never depends on the sanitiser, only the logged submission does |
| ContactRoute.QuotaSpentBeforeParsing | app/api/contact/route.ts:35-44 | an allowed request is counted before its body is read, so even a 400 consumes quota |
| ContactRoute.AllFieldsValidIs200 | app/api/contact/route.ts:28-113 | an allowed object body whose five fields meet their constraints gets the success response |
| ContactRoute.ShortNameValid | lib/validation.ts:9 | "Al" meets the name constraint |
| ContactRoute.ShortEmailValid | lib/validation.ts:15-16 | "a@b.co" meets the e-mail constraint when it passes the address syntax check |
| ContactRoute.ShortSubjectValid | lib/validation.ts:20 | "Hi there" meets the subject constraint |
| ContactRoute.ShortMessageValid | lib/validation.ts:25 | "1234567890" (ten characters) meets the message constraint |
| ContactRoute.ShortestFieldsAccepted | app/api/contact/route.ts:107-113 | `{Al, a@b.co, Hi there, 1234567890, ""}` gets 200 with the success message |
| ContactRoute.FilledHoneypotScenario | app/api/contact/route.ts:59-66 | the same body with honeypot "spam" gets 400 |
| ContactRoute.TrapGetsFakeSuccess | app/api/contact/route.ts:61-66 | with the trap checked by the route, a filled trap on an otherwise valid body gets the bare 200 success and no submission is logged (the security warning at app/api/contact/route.ts:64 is console output, which is left out) |
| ContactRoute.RespondIntended | app/api/contact/route.ts:61-66 | with the trap checked by the route, the status is still one of 200, 400, 429, 500, 429 exactly when the quota is spent, and a submission is logged only with the 200 success message |
| ContactRoute.IntendedAgreesWithoutTrap | app/api/contact/route.ts:28-122 | the correction changes nothing for a request that does not fill the trap |
| ContactRoute.FilledHoneypotScenarioIntended | app/api/contact/route.ts:61-66 | with the correction, the "spam" scenario gets the bare 200 success |
| Projects.FilterMembers | data/projects.ts:191 | filtering keeps exactly the elements that satisfy the predicate |
| Projects.FilterCount | data/projects.ts:191 | filtering keeps every copy of a kept element and drops every copy of any other |
| Projects.FiltersCommute | data/projects.ts:191 | two filters applied in either order give the same sequence |
| Projects.SortByDatePermutes | data/projects.ts:187 | the date sort is a permutation |
| Projects.SortByDateSorted | data/projects.ts:187 | the date sort puts newer projects first |
| Projects.SortByDateStable | data/projects.ts:187 | projects with equal dates keep their relative order |
| Projects.StableSortUnique | data/projects.ts:187 | two newest-first orderings with the same order within each date are equal |
| Projects.SortByDateIsTheStableSort | data/projects.ts:187 | any stable newest-first ordering of the input is the one `SortByDate` gives |
| Projects.SortByDateIdempotent | data/projects.ts:187 | sorting a sorted list changes nothing, so repeated `getAllProjects` calls agree |
| Projects.SortInPlace | data/projects.ts:187 | the in-place sort leaves the array holding the stable newest-first order of its old contents |
| Projects.FindBySlug | data/projects.ts:194-196 | the lookup is none iff no project has the slug, and otherwise the first project that has it |
| Projects.NoCategoryCalledAll | data/projects.ts:198-200 | no project category is named "all", so the filter branch never sees it |
| Projects.FeaturedSpec | data/projects.ts:190-192 | the featured list holds exactly the featured projects, each as often as in the array, newest first, and the featured projects of each date in array order |
| Projects.InCategory | data/projects.ts:200 | the category filter keeps exactly the projects whose category is named by the argument, each as often as in the array |
| Projects.InCategoryAppend | data/projects.ts:200 | the category filter keeps array order: filtering a concatenation concatenates the filtered parts |
| Projects.Featured | data/projects.ts:191 | the featured filter keeps exactly the featured projects, each as often as in the array |
| Projects.FeaturedAppend | data/projects.ts:191 | the featured filter keeps array order: filtering a concatenation concatenates the filtered parts |
| Projects.SortByDate | data/projects.ts:187 | the sort keeps the length; that it is a permutation, newest first and stable is stated by SortByDatePermutes, SortByDateSorted and SortByDateStable |
| Projects.Catalogue.constructor | data/projects.ts:3-184 | the catalogue array holds the three shipped projects in source order |
| Projects.Catalogue.GetAllProjects | data/projects.ts:186-188 | sorts the shared array in place and returns that same array |
| Projects.Catalogue.GetFeaturedProjects | data/projects.ts:190-192 | returns a fresh array with the featured projects newest first, leaving the shared array alone |
| Projects.Catalogue.GetProjectBySlug | data/projects.ts:194-196 | returns the first project with the slug, or none |
| Projects.Catalogue.GetProjectsByCategory | data/projects.ts:198-201 | "all" sorts the shared array in place and returns it; any other string returns a fresh filtered array and leaves the shared array unchanged |
| Projects.ShippedSlugsDistinct | data/projects.ts:3-184 | the three shipped slugs are pairwise distinct |
| Projects.ShippedLookup | data/projects.ts:194-196 | "pizza-falchi" finds the Pizza Falchi project |
| Projects.ShippedAiCategory | data/projects.ts:198-201 | "AI/ML" finds only SocialFlow AI |
| Projects.ShippedFeaturedOrder | data/projects.ts:186-192 | both the featured list and the full sorted list are SocialFlow AI, Hi-Ring, Pizza Falchi |
| Skills.NameInjective | types/skill.ts:1-8 | distinct skill categories have distinct names |
| Skills.SkillsOf | data/skills.ts:77-79 | no group of the category gives no skills; otherwise the skills of the first such group |
| Skills.SkillsOfMatchCategory | data/skills.ts:77-79 | in well-grouped data every returned skill has the requested category |
| Skills.SkillsOfUnique | data/skills.ts:77-79 | in well-grouped data each group's category finds exactly that group's skills |
| Skills.UnknownCategoryHasNoSkills | data/skills.ts:77-79 | a string naming no category finds no skills |
| Skills.ShippedSkillsWellGrouped | data/skills.ts:3-71 | the six shipped groups have distinct categories, and each skill is filed under its own category |
| Skills.GetAllSkills | data/skills.ts:73-75 | the shared array holds six groups of distinct categories, each skill filed under its own group's category |
| Skills.GetSkillsByCategory | data/skills.ts:77-79 | a category filed under a shipped group finds exactly that group's skills, a category with no group finds none, and every skill returned has the requested category |
| Skills.SkillsOfFindsGroup | data/skills.ts:77-79 | in well-grouped data, the lookup of a group's category gives that group's skills |
| Skills.OtherHasNoSkills | data/skills.ts:77-79 | "Other" is a valid category with no group, so it finds nothing |
| Skills.FrontendSkills | data/skills.ts:4-17 | "Frontend" finds nine skills, React first |

## Left out

- The route never calls `sendContactEmail`: app/api/contact/route.ts:76-105 hold only a TODO, a `console.log` and commented-out examples, so `Respond` has no delivery step.
- The honeypot branch at app/api/contact/route.ts:62-66 is unreachable, because the schema rejects a non-empty honeypot first (see Findings).
- The limiter is a fixed window per key: app/api/contact/route.ts:15-17 start a new window only once `now > resetTime`.
- Console output (the warnings, the log lines and the development printout) is left out. What the route logs on success is kept as the `logged` submission, but not the log's IP address and timestamp.
- JsText.ToLowerCase: only ASCII letters are lower-cased, because the full Unicode case mapping of `toLowerCase` is not modelled. Characters outside A-Z are kept.
- Lone UTF-16 surrogates are not modelled, because Dafny characters are Unicode scalar values. Text is modelled as characters, with astral characters counting as two code units.
- JavaScript numbers are unbounded integers here, so there is no floating point and no overflow of `count` or `resetTime`. `count` never exceeds 3, and timestamps stay far below 2^53.
- Concurrency is not modelled, because each request is one atomic step on the limiter. In the source the check has no await, so it is atomic as well.
- The record update `record.count++` happens in place on the stored object. The model replaces the map entry instead; nothing else holds the record, so no aliasing is lost.
- `Date.now()` is the parameter `now`. `toLocaleString(...)` is the preformatted parameter `sentOn`.
- Email.SendContactEmail: the source reads the clock three times (the reference id at lib/email.ts:52 and the date in each body, at lib/email.ts:199 and lib/email.ts:229). The model reads it once for the id (`now`) and once for both bodies (`sentOn`), so it cannot show the two bodies carrying different minutes across a clock tick.
- `sanitizeString`, zod's e-mail regular expression and the Resend client are code outside this model, so they are the parameters `sanitize`, `isEmail` and `provider`.
- The error text of a failed `request.json()` is not modelled. Only the fact of failure (`Unparseable`) is kept, and the answer is the same fixed 500.
- The environment schema's own checks (URL, e-mail, enum) and the exception thrown when they fail are left out, because only which keys survive parsing matters to the mailer. `ParseEnv` models the stripping and the `NODE_ENV` default.
- The commented-out delivery examples in the route are not code and are not modelled.
- Projects.SortInPlace: the engine's sort algorithm (TimSort) is not modelled. The model uses an insertion sort. `SortByDateIsTheStableSort` proves that any stable newest-first sort gives the same result, so the result agrees with the source's stable `Array.prototype.sort`.
- Rendering of the HTML template's CSS and of the e-mail by clients is out of scope. The template's text is kept character for character.

## Findings

| source | as written | input that shows it | evidently intended | confidence | as-written member | corrected member |
|---|---|---|---|---|---|---|
| lib/email.ts:6 | the client is created from `env.RESEND_API_KEY`, but the environment schema declares `EMAIL_API_KEY` and parsing strips undeclared keys | a process environment with RESEND_API_KEY, EMAIL_FROM and EMAIL_TO all set: no client is created and every send returns the development failure | create the client from the declared `EMAIL_API_KEY` | high; not executed | Email.ResendKeyNeverSeen | Email.DeclaredKeyEnablesSending |
| lib/validation.ts:28 | `honeypot: z.string().max(0)` rejects a filled trap during validation, so the route's fake-success branch (app/api/contact/route.ts:62-66) never runs and bots get a 400 that names the `honeypot` field | `{name: "Al", email: "a@b.co", subject: "Hi there", message: "1234567890", honeypot: "spam"}` gets 400 | the trap only has to be a string, and the route answers a filled trap with the bare 200 success and logs no submission (its console warning is left out) | medium; not executed | ContactRoute.FilledHoneypotScenario | ContactRoute.TrapGetsFakeSuccess |

`Post` keeps the route as written. `RespondIntended` is the corrected decision, built on `Validation.ValidateTrapAsString`. `IntendedAgreesWithoutTrap` shows that it differs only for requests that fill the trap.
