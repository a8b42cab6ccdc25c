# VibeDoctor site core, modelled in Dafny

The VibeDoctor marketing site is a Remix application. Its server-side logic is
small, and three pieces of it are modelled here:

- **The contact form's `action`** (`app/routes/contact.tsx`). It reads four
  form fields and trims them, then validates them, collecting every error at
  once. A valid submission is sent as one JSON POST to the email service. The
  handler turns what the service did (threw, failed, succeeded, with a body that
  may or may not parse) into a `ContactActionData` result and an HTTP status.
- **`getSeoMeta`** (`app/lib/seo.ts`). It builds the ordered list of HTML meta
  descriptors for a page: title, description, robots, optional keywords,
  OpenGraph, optional og:url, and Twitter.
- **The server environment helpers** (`app/lib/env.server.ts`): `getEnv`,
  `getRequiredEnv` and the `env` configuration object.

Files:

- `wrappers.dfy`: `Option` and `Result`.
- `text.dfy`: JavaScript's whitespace class, `String.prototype.trim` and
  `startsWith`.
- `env.dfy`: the environment helpers. The process environment is a
  `map<string, string>` parameter.
- `seo.dfy`: `getSeoMeta`, written as a method that appends to a list the way
  the source pushes onto its array. It is proved against a specification made
  of a key layout (`Layout`) and a per-key content table (`ExpectedContent`).
- `contact.dfy`: the email pattern, validation, the request body and the
  interpretation of the outbound call. It also holds the handler `Action`,
  which takes the form and the outcome of the single `fetch` as parameters and
  reports the request it sent.

JavaScript semantics that the model writes out:

- `x || fallback` treats `""` as unset (`Env.IsSet`, `Env.OrElse`).
- A destructuring default applies only to `undefined`, not to `""`
  (`Seo.WithDefault`).
- `response.ok` means a status from 200 to 299.
- `apiPayload?.message` finds nothing on a body that did not parse (`null`) or
  that is not an object.
- `JSON.stringify` drops a member whose value is `undefined`.
- The whitespace set is the same for `trim` and the regular expression's `\s`:
  the ECMAScript WhiteSpace and LineTerminator characters.

JavaScript details that the model follows as the code is written:

- A non-ok response with a status below 400 (for example a 3xx) is reported as
  500. Otherwise the upstream status is passed through.
- The service's `message` or `error` is used only when it is a *non-empty*
  string. An empty string falls through to the next choice because of `||`.
- `getSeoMeta` falls back to `http://localhost:5173` when `PUBLIC_URL` is unset
  or empty. The `env` object falls back to `http://localhost:8080`. The two agree
  exactly when `PUBLIC_URL` is set and non-empty (`Seo.SiteUrlFallback`).
- The handler posts to `env.EMAIL_API_URL`, but the `env` object does not
  declare that entry. The model leaves the endpoint out. Whatever `fetch` does
  with it shows up only as the `Outcome` parameter; a `fetch` that throws is
  `Threw`.

## Model

| member | source | states |
|---|---|---|
| Text.IsWhitespace | app/routes/contact.tsx:23-32 | the ECMAScript WhiteSpace and LineTerminator characters, the set both `\s` in `emailRegex` and `.trim()` use; no contract of its own; used by `Trim`, `EmailChar` and their lemmas |
| Text.TrimStart | app/routes/contact.tsx:29-32 | the leading half of `.trim()`: the result is no longer than the input and does not start with whitespace; `TrimStartIsSuffix` shows it is the input with a whitespace prefix removed |
| Text.TrimEnd | app/routes/contact.tsx:29-32 | the trailing half of `.trim()`: the result is no longer than the input and does not end with whitespace; `TrimEndIsPrefix` shows it is the input with a whitespace suffix removed |
| Text.StartsWith | app/lib/seo.ts:27 | `String.prototype.startsWith`; a predicate with no contract of its own, used by `Seo.ImageUrl` and described through `Seo.ImageUrlShared` |
| Text.Trim | app/routes/contact.tsx:29-32 | `.trim()` returns a trimmed string no longer than its input |
| Text.TrimStartIsSuffix | app/routes/contact.tsx:29-32 | trimming the start keeps a suffix and removes only whitespace |
| Text.TrimEndIsPrefix | app/routes/contact.tsx:29-32 | trimming the end keeps a prefix and removes only whitespace |
| Text.TrimCutsOnlyWhitespace | app/routes/contact.tsx:29-32 | the trimmed value is a substring of the input, and everything cut on either side is whitespace |
| Text.TrimFixesTrimmed | app/routes/contact.tsx:29-32 | `trim` leaves a string unchanged exactly when it has no whitespace at either end |
| Text.TrimIdempotent | app/routes/contact.tsx:29-32 | trimming twice is the same as trimming once |
| Text.TrimEmptyIff | app/routes/contact.tsx:29-32 | a value trims to "" exactly when it is all whitespace |
| Text.TrimIgnoresPadding | app/routes/contact.tsx:29-32 | whitespace added on either side does not change the trimmed value |
| Contact.FormValue | app/routes/contact.tsx:29-32 | a missing field reads as "" and a present one as its trimmed value; either way the result is trimmed |
| Contact.ReadValues | app/routes/contact.tsx:28-33 | every field of `values` is trimmed |
| Contact.ReadValuesField | app/routes/contact.tsx:28-33 | each field of `values` is read from that field's own form entry, and is "" when the entry is missing |
| Contact.ResubmitEchoedValues | app/routes/contact.tsx:28-33 | resubmitting the echoed `values` reads back the same `values` |
| Contact.PaddingIgnored | app/routes/contact.tsx:28-33 | whitespace around a submitted value does not change what the handler reads |
| Contact.EmailShapeAt | app/routes/contact.tsx:23 | the string is L@D with the `@` at a given index, L and D non-empty and free of `@` and whitespace, and a `.` inside D; no contract of its own; the body of `EmailShape` |
| Contact.EmailShape | app/routes/contact.tsx:23 | the strings the pattern matches, as L@D; the reference definition that `EmailRegexTestIsShape` ties `EmailRegexTest` to, and in whose terms `FieldErrorsCases` and `NoFieldErrorsIff` are stated |
| Contact.IndexOfAt | app/routes/contact.tsx:23 | returns the first `@`, or none when the string has no `@` |
| Contact.EmailRegexTest | app/routes/contact.tsx:23 | `emailRegex.test`; no contract of its own; described by `EmailRegexTestIsShape` |
| Contact.EmailRegexTestIsShape | app/routes/contact.tsx:23 | the pattern test accepts exactly the strings L@D, where L and D are non-empty, hold no `@` or whitespace, and D has a `.` that is neither its first nor its last character |
| Contact.ShortAddressIsEmail | app/routes/contact.tsx:23 | `a@b.co` matches the pattern |
| Contact.NoAtIsNotEmail | app/routes/contact.tsx:23 | `not-an-email` does not match |
| Contact.SpaceIsNotEmail | app/routes/contact.tsx:23 | `a b@c.de` does not match, because of the space |
| Contact.FieldError | app/routes/contact.tsx:37-48 | the rule for one field's error; no contract of its own; described by `FieldErrorsCases` and `FieldErrorIsLocal` |
| Contact.FieldErrors | app/routes/contact.tsx:35-49 | the error map, one entry per failing field; no contract of its own; described by `FieldErrorsCases`, `NoFieldErrorsIff`, `BlankFieldIsMissing` and `CollectFieldErrors` |
| Contact.CollectFieldErrors | app/routes/contact.tsx:35-49 | the sequential checks build exactly the error map `FieldErrors` |
| Contact.FieldErrorsCases | app/routes/contact.tsx:35-49 | the email error is "required" iff the email is empty and "invalid" iff it is non-empty but not shaped like an email; the subject and message errors appear iff those fields are empty; the name is never flagged |
| Contact.NoFieldErrorsIff | app/routes/contact.tsx:35-51 | validation passes iff the email has the shape and the subject and message are non-empty |
| Contact.FieldErrorIsLocal | app/routes/contact.tsx:35-49 | each field's error depends only on that field's value |
| Contact.BlankFieldIsMissing | app/routes/contact.tsx:28-49 | a missing or whitespace-only subject, message or email is reported as missing, and nothing else is |
| Contact.RequestBodyOf | app/routes/contact.tsx:63-68 | `requestBody`; no contract of its own; described by `RequestCarriesTrimmedValues` |
| Contact.Serialize | app/routes/contact.tsx:78 | `JSON.stringify(requestBody)`; no contract of its own; described by `RequestCarriesTrimmedValues` |
| Contact.BuildRequest | app/routes/contact.tsx:70-79 | the `fetch` request's method, headers and body; no contract of its own; described by `RequestCarriesTrimmedValues` |
| Contact.RequestCarriesTrimmedValues | app/routes/contact.tsx:63-79 | the request is a JSON POST whose body holds the trimmed email, subject and message, and holds the name only when it is non-empty |
| Contact.PayloadString | app/routes/contact.tsx:90-91 | a result is found exactly when the payload is an object whose member at the key is a non-empty string, and it is that string |
| Contact.RejectionMessage | app/routes/contact.tsx:89-92 | the failure message; no contract of its own; described by `RejectionMessagePrecedence` |
| Contact.AcceptedMessage | app/routes/contact.tsx:104-109 | the success message; no contract of its own; described by `AcceptedMessagePrecedence` |
| Contact.Interpret | app/routes/contact.tsx:81-122 | the result once the request went out; no contract of its own; described by `InterpretInvariants`, `MessageSources`, `AcceptedMessagePrecedence`, `RejectionMessagePrecedence` and `UnparsedBodyIsNull` |
| Contact.IsOk | app/routes/contact.tsx:88 | `response.ok`: a status from 200 to 299; no contract of its own; used by `Interpret` and `InterpretInvariants` |
| Contact.InterpretInvariants | app/routes/contact.tsx:81-122 | after the call there are no field errors; success iff the status is 2xx, and then status 200 and no values; otherwise the values are echoed and the status is the upstream one when it is at least 400, else 500; the message is never empty; a thrown call gives exactly status 500, the fixed transport-failure message and the echoed values |
| Contact.MessageSources | app/routes/contact.tsx:88-122 | a success shows the fixed success message or the service's non-empty `message`; a failure shows a fixed failure message or the service's non-empty `message` or `error` |
| Contact.AcceptedMessagePrecedence | app/routes/contact.tsx:104-109 | on an ok status, the service's non-empty `message` is shown, and otherwise "Message sent successfully." |
| Contact.RejectionMessagePrecedence | app/routes/contact.tsx:89-92 | on failure, `message` wins over `error`, which wins over the fallback |
| Contact.UnparsedBodyIsNull | app/routes/contact.tsx:81-86 | a body that does not parse acts as `null`, and so does any parsed body that is not an object |
| Contact.Action | app/routes/contact.tsx:25-123 | a request is sent iff there are no field errors; a rejection is 400 with the errors and the echoed values; otherwise the response is what the outcome gives, and success implies 200 while failure implies a status of at least 400 |
| Contact.ScenarioAllErrorsReported | app/routes/contact.tsx:35-49 | a malformed email with an empty subject and message reports all three errors together |
| Contact.ScenarioValues | app/routes/contact.tsx:28-33 | a form without a name reads as the expected trimmed values |
| Contact.ThreeErrorsAtOnce | app/routes/contact.tsx:35-49 | a malformed email with an empty subject and message yields exactly those three errors |
| Contact.ScenarioUpstreamDown | app/routes/contact.tsx:88-101 | a 502 with `{error: "upstream down"}` yields that message, status 502 and the echoed values |
| Contact.ScenarioUnparsableSuccess | app/routes/contact.tsx:81-109 | a 2xx whose body does not parse still succeeds, with the fallback message |
| Env.Lookup | app/lib/env.server.ts:13 | `process.env[key]`, `undefined` when absent; no contract of its own; used by every `Env` contract |
| Env.IsSet | app/lib/env.server.ts:15 | the JavaScript truthiness of an optional string: present and not empty; no contract of its own; used by `GetEnv`, `GetRequiredEnv`, `OrElse` and `LoadServerEnv` |
| Env.MissingMessage | app/lib/env.server.ts:16 | the text of the error thrown for a missing required variable, "Missing required environment variable: " followed by the key; no contract of its own; used by `GetEnv` and `GetRequiredEnv` |
| Env.OrElse | app/lib/env.server.ts:40-49 | the `or` fallback: the value when set and non-empty, else the fallback |
| Env.GetEnv | app/lib/env.server.ts:12-20 | fails iff the variable is required and unset or empty, with the "Missing required environment variable" message; otherwise returns the raw value |
| Env.GetRequiredEnv | app/lib/env.server.ts:26-32 | fails iff the variable is unset or empty; on success returns its exact, non-empty value |
| Env.Optional | app/lib/env.server.ts:45-46 | `getEnv` without `required` never fails and returns the raw value |
| Env.LoadServerEnv | app/lib/env.server.ts:38-55 | each defaulted entry is the variable when set and non-empty, else its default; the database URLs pass through unchanged |
| Env.DefaultedEntriesNonEmpty | app/lib/env.server.ts:40-49 | NODE_ENV, PORT, PUBLIC_URL and SESSION_SECRET are never empty |
| Env.DefaultedEntriesMatchRequired | app/lib/env.server.ts:26-49 | a defaulted entry equals `getRequiredEnv`'s value when that succeeds, and is the default exactly when it would throw |
| Seo.AppendKeepsLayout | app/lib/seo.ts:36-60 | a push keeps every descriptor's content correct and appends its keys |
| Seo.HeadFits | app/lib/seo.ts:29-33 | the three leading descriptors carry the title, description and robots |
| Seo.OpenGraphFits | app/lib/seo.ts:40-49 | the eight OpenGraph descriptors carry their contents |
| Seo.TwitterFits | app/lib/seo.ts:56-61 | the four Twitter descriptors carry their contents |
| Seo.WithDefault | app/lib/seo.ts:15-24 | a destructuring default; no contract of its own; described by `DefaultsOnlyWhenUndefined` |
| Seo.SiteUrl | app/lib/seo.ts:26 | the site URL; no contract of its own; described by `SiteUrlFallback` |
| Seo.ImageUrl | app/lib/seo.ts:27 | the absolute image URL; no contract of its own; described by `ImageUrlShared` and `MetaSharesImageUrl` |
| Seo.Layout | app/lib/seo.ts:29-61 | the order of the descriptor keys; specification used by `GetSeoMeta`, described by `LayoutPositions` and `LayoutOptional` |
| Seo.ExpectedContent | app/lib/seo.ts:29-61 | the content each key calls for; specification used by `GetSeoMeta`, described by the `*Content*`, `TitleRepeated` and `DefaultsOnlyWhenUndefined` lemmas |
| Seo.GetSeoMeta | app/lib/seo.ts:14-64 | the descriptors follow `Layout`, with keywords iff `keywords` is a non-empty string and og:url iff `url` is; each carries the content its key calls for |
| Seo.LayoutPositions | app/lib/seo.ts:29-61 | 15 entries plus one each for keywords and url; title, description and robots first; keywords at index 3; the OpenGraph block next; og:url right after it; the four Twitter entries last |
| Seo.LayoutOptional | app/lib/seo.ts:35-53 | the keywords entry is present iff keywords are set, and the og:url entry iff the url is set |
| Seo.TitleRepeated | app/lib/seo.ts:30-58 | og:title, og:image:alt and twitter:title repeat the title |
| Seo.ImageUrlShared | app/lib/seo.ts:19-27 | og:image and twitter:image carry the same URL: an image starting with "http" as is, any other appended to the site URL, with "/og-image.png" by default |
| Seo.DefaultsOnlyWhenUndefined | app/lib/seo.ts:15-24 | the robots, type and site-name defaults apply only when the field is absent |
| Seo.SiteUrlFallback | app/lib/seo.ts:26 | the site URL is PUBLIC_URL when set and non-empty, else `http://localhost:5173`; it agrees with `env.PUBLIC_URL` iff PUBLIC_URL is set |
| Seo.DescriptorAt | app/lib/seo.ts:29-61 | in a result of `getSeoMeta`, the entry at a position is the descriptor for the layout key there and its expected content |
| Seo.SeoMetaHead | app/lib/seo.ts:29-37 | any result of `getSeoMeta` has 15 + 0..2 entries and opens with exactly the title, description and robots descriptors |
| Seo.SeoMetaTail | app/lib/seo.ts:55-61 | any result of `getSeoMeta` closes with exactly the four Twitter descriptors |
| Seo.OpenGraphContentFront | app/lib/seo.ts:41-44 | og:type, og:title, og:description and og:site_name carry the type, title, description and site name |
| Seo.OpenGraphContentBack | app/lib/seo.ts:45-48 | og:image carries the image URL, the size is 1200x630, and the alt text is the title |
| Seo.MetaRepeatsTitle | app/lib/seo.ts:30-58 | in any result of `getSeoMeta`, every og:title, og:image:alt and twitter:title descriptor carries the title |
| Seo.MetaSharesImageUrl | app/lib/seo.ts:19-27 | in any result of `getSeoMeta`, the og:image and twitter:image descriptors carry the same image URL |
| Seo.MetaDefaultsOnlyWhenUndefined | app/lib/seo.ts:15-24 | in any result of `getSeoMeta`, the robots, og:type and og:site_name descriptors use their defaults only when the field is absent |
| Seo.TwitterContent | app/lib/seo.ts:56-61 | the Twitter card is "summary_large_image" with the title, description and image URL |

## Left out

- Reading the request (`request.formData()`), the `fetch` call, `response.json()` and `console.error` are I/O. The form is a map parameter, and what the call did is the `Outcome` parameter.
- The email service's URL (`env.EMAIL_API_URL`) is not modelled, because the `env` object does not declare it. The request records its method, headers and body only.
- Form entries that are files, and repeated entries under one name, are not modelled: the form holds at most one text value per field. Form entries other than the four fields are never read, so they are not modelled either.
- JSON numbers are integers in the payload model. The handler reads only string members, so this does not affect any result.
- The JavaScript regular-expression engine is replaced by a direct decision procedure, `Contact.EmailRegexTest`. `Contact.EmailRegexTestIsShape` proves it equal to the pattern's language.
- `Seo.GetSeoMeta`: `type` is a free string, not restricted to "website" or "article". The model does not prove that the descriptor keys are pairwise distinct.
- `Seo.GetSeoMeta`: the site URL is read from the environment map parameter, not from `process.env` at call time.
- The Remix `json()` helper is represented only by the status and data it is given. Headers and serialisation of the response are not modelled.
- `clientEnv` is empty in the source and is not modelled.
- The `meta` export and the React component of the contact page, the presentational components, `db.server.ts`, the IndexNow and health routes, and the static pages are not part of this model.
