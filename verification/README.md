# Send-email tool: parameter schema and request builder

This project models the `send-email` tool of an MCP server backed by the Resend
email API, and proves properties of that model. The tool does four things:

- it reads its configuration, which is an API key, a default sender and a
  comma-separated list of default reply-to addresses;
- it advertises a parameter schema whose `from` and `replyTo` fields depend on
  that configuration;
- on each call it checks the API key, resolves the sender and reply-to addresses
  against the defaults, and assembles the provider request;
- it turns the provider's answer into the tool's result or a thrown error.

The configuration is an explicit `Config.Config` value rather than module-level
globals. The provider call, JavaScript's `JSON.stringify` and the schema
library's email syntax check are function parameters (`send`, `stringify`,
`isEmail`). A thrown `Error` becomes a `Failure` of the `SendEmail.SendError`
datatype, and `Message` gives its text.

Modules:

- `Wrappers` (wrappers.dfy): `Option` and `Result`.
- `Js` (js.dfy): JavaScript truthiness of a possibly-undefined string, and
  the `??` operator.
- `Split` (split.dfy): `String.prototype.split` and `Array.prototype.join` with a
  one-character separator (joining no pieces gives the empty string), proved
  mutually inverse on the non-empty lists that splitting produces.
- `Config` (config.dfy): the configuration and the parsing of the reply-to
  variable.
- `SendSchema` (schema.dfy): the schema, the call parameters, and what it means
  for a call to satisfy the schema.
- `SendEmail` (send_email.dfy): request preparation, response interpretation and
  the whole invocation.

The model follows the JavaScript semantics the code relies on. In places these
differ from what the code's own comments suggest: "If sender email address is
not provided" at src/tools/send-email.ts:61, and the type checks described at
lines 110 and 115.

- Truthiness decides the API key and the sender default. An empty
  `RESEND_API_KEY` disables the client exactly like an unset one. An empty
  `SENDER_EMAIL_ADDRESS` makes the schema demand `from`.
- The sender is resolved with `??`, which falls back only on `undefined`. So an
  empty sender default with no caller `from` resolves to `""` and is not an
  error. The error "from argument must be provided." is thrown only when both
  are undefined.
- `html` and `scheduledAt` are dropped when they are the empty string. `cc` and
  `bcc` are kept whenever they are supplied, even when empty.
- `subject` and `text` may be empty strings. Only `from` carries a non-empty
  constraint.
- The reply-to type check can never fire, because the default is always a list.
  The model keeps the branch and proves it unreachable.

## Model

| member | source | states |
|---|---|---|
| Split.Split | src/tools/send-email.ts:25 | splitting always yields at least one piece, and no piece contains the separator |
| Split.JoinSplit | src/tools/send-email.ts:25 | joining the pieces of a split with the separator gives back the original string |
| Split.SplitJoin | src/tools/send-email.ts:25 | splitting the join of separator-free pieces gives back exactly those pieces |
| Split.SplitUnique | src/tools/send-email.ts:25 | the split is the only separator-free list of pieces that joins back to the string |
| Split.SplitCount | src/tools/send-email.ts:25 | the number of pieces is one more than the number of commas, so there is no trimming and empty pieces are kept |
| Config.ParseReplyTo | src/tools/send-email.ts:22-26 | an unset or empty variable gives `[]`; otherwise a non-empty list of comma-free pieces that joins with ',' back to the variable |
| Config.ParseReplyToEmptyIff | src/tools/send-email.ts:22-26 | the default list is empty exactly when the variable is unset or empty |
| Config.ParseReplyToRoundTrip | src/tools/send-email.ts:24-26 | a set, non-empty variable is recovered by joining its parsed list with ',' |
| Config.ParseReplyToOfJoin | src/tools/send-email.ts:24-26 | every non-empty list of comma-free addresses is the parse of its own join |
| Config.ParseReplyToTwoAddresses | src/tools/send-email.ts:24-26 | "a@x.com,b@x.com" parses to ["a@x.com", "b@x.com"] |
| SendSchema.BuildSchema | src/tools/send-email.ts:29-85 | `to`, `subject` and `text` are always present and required; `html`, `cc`, `bcc` and `scheduledAt` are always present and optional; `from` is present, required, an email and non-empty exactly when the sender default is falsy; `replyTo` is present and optional exactly when the parsed reply-to list is empty; no other field appears |
| SendSchema.ReplyToFieldIffNoDefault | src/tools/send-email.ts:73-84 | `replyTo` is offered exactly when the reply-to variable is unset or empty |
| SendSchema.SchemaShapes | src/tools/send-email.ts:61-84 | the field set is the fixed seven plus `from` and `replyTo`, each decided independently by its own default; the API key does not affect the schema |
| SendSchema.ConformsGuarantees | src/tools/send-email.ts:29-84 | a call that satisfies the advertised schema has a valid `to`, `cc` and `bcc`; it has a non-empty valid `from` when no sender default exists; its `replyTo` addresses are valid when no reply-to default exists |
| SendEmail.MessageInjective | src/tools/send-email.ts:100-169 | the four thrown messages are pairwise distinct, and a provider error's details are determined by its message |
| SendEmail.Prepare | src/tools/send-email.ts:100-159 | a missing or empty API key fails first; "from" fails exactly when both the caller's `from` and the default are undefined; no other error arises; on success `to`, `subject` and `text` are copied verbatim, `from` and `replyTo` are the caller's value or else the default, `cc` and `bcc` are present exactly when supplied, `html` and `scheduledAt` exactly when non-empty, and no other key appears |
| SendEmail.ReplyToCheckUnreachable | src/tools/send-email.ts:108-121 | the "replyTo argument must be provided." error never occurs |
| SendEmail.PrepareSucceedsIff | src/tools/send-email.ts:101-113 | preparation succeeds exactly when a client exists and a sender is available from the caller or the default |
| SendEmail.ConformingCallResolves | src/tools/send-email.ts:105-142 | with a client, a call that satisfies the advertised schema always yields a request whose recipients are valid, whose sender is non-empty and valid when no default exists, and whose reply-to addresses are valid when no default exists |
| SendEmail.Interpret | src/tools/send-email.ts:163-178 | a response with an error is a failure whose message is "Email failed to send: " followed by the serialized error; otherwise the result is exactly one `text` item, "Email sent successfully! " followed by the serialized data |
| SendEmail.Send | src/tools/send-email.ts:100-178 | without a client the call fails with the API-key error; an error from preparing the request is passed on unchanged; it succeeds exactly when the request was prepared and the provider reported no error, and then its content is the single `text` item "Email sent successfully! " followed by the serialized data; it fails with a provider error exactly when the request was prepared and the provider reported one, and then the error's details are the serialized provider error |
| SendEmail.NoApiKeyFailsFirst | src/tools/send-email.ts:101-103 | without an API key, every call fails identically whatever its parameters, provider or serializer, and no request is built |
| SendEmail.SendDependsOnlyOnPrepared | src/tools/send-email.ts:161-163 | the provider is consulted only on the prepared request, so two providers that agree on it give the same outcome |
| SendEmail.DefaultSenderScenario | src/tools/send-email.ts:105-159 | with a sender default and no reply-to default, a call with only `to`, `subject` and `text` gives a request from the default, with `replyTo` `[]` and no optional keys |
| SendEmail.ProviderErrorScenario | src/tools/send-email.ts:163-169 | when the provider answers with an error, the call fails and its message carries the serialized error |

## Left out

- The audience-listing tool (src/tools/list-audiences.ts). It repeats the same API-key check and response-error check around a call that takes no parameters.
- The build and transport configuration (xmcp.config.ts). It has no behaviour.
- The tool metadata (name, description, annotations). These are constants with no behaviour.
- Loading `.env` and reading `process.env`. The three variables are the fields of `Config.Config`.
- Constructing the Resend client. `Config.HasClient` stands for the truthiness test that decides whether a client exists.
- The asynchronous provider call. It is the `send` parameter, and its answer is a `SendEmail.Response` value.
- The schema library's email regular expression. It is the `isEmail` parameter.
- How the host parses arguments against the schema, including whether it drops keys the schema does not declare. `SendSchema.Conforms` states only what the declared fields demand.
- `JSON.stringify`. It is the `stringify` parameter.
- The `console.error` diagnostics.
- The field descriptions shown to the calling agent (the `.describe(...)` texts). They are prose with no behaviour, so the schema holds only each field's type, required flag and non-empty flag.
