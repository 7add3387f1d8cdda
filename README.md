# GraphQL server: schema registry, request gate and error classifier

A Dafny model of two parts of a TypeScript GraphQL server.

1. The `GraphQLServer` class (`src/server/GraphQLServer.ts`), modelled as the class
   `Server.GraphQLServer`. It holds:
   - the current schema (`Option<Schema>`);
   - the validation errors of that schema;
   - the debug flag;
   - the logger and the schema-validation function.

   `SetSchema` asks the `shouldUpdateSchema` decision first. When the decision accepts,
   it installs the candidate and revalidates it if it is present. When the decision
   rejects, it logs a warning and changes nothing. `HandleRequest` is a gate with
   early exits:
   - a method other than GET or POST gets 405 with `Allow: GET, POST`;
   - otherwise an absent or invalid schema gets 500;
   - otherwise the placeholder data `{response: 'hello world'}` is sent with 200.

   `SendResponse` sets the status, then `Content-Type`, then each custom header in
   order, on a `Server.ServerResponse` object. The logger is modelled as the trace
   `log` of the entries it receives; debug entries are appended only when `debug`
   is on. The ghost predicate `Valid()` says the stored errors are those of the
   current schema, as computed by the validation function in force when it was
   installed; that function is recorded in the ghost field `validatedBy`, which
   the constructor, `SetOptions` and `SetSchema` state outright. Every method
   that changes the registry keeps the predicate.
2. `determineValidationOrIntrospectionDisabledError`
   (`src/error/DetermineValidationOrIntrospectionDisabledError.ts`), modelled as a pure
   function in `ErrorClassification`. A value gets the introspection-disabled label
   exactly when it is an `Error` whose message contains both `introspection` and
   `disabled`, matched case-sensitively. Every other value gets the validation label.
   The recursive `Includes` (JavaScript's `String.prototype.includes`) is proved equal
   to an `exists`-based substring predicate.

`ServerScenarios` replays the situations in the test files as client methods.

Files: `wrappers.dfy` (Option), `error_classification.dfy`, `graphql_server.dfy`,
`server_scenarios.dfy`.

### Behaviour of the code worth noting

- A decision that accepts an absent schema clears `schema` but keeps the previous
  errors, because `setSchema` revalidates only a present schema
  (src/server/GraphQLServer.ts:47). `SetSchema` and
  `ServerScenarios.AlwaysUpdateClearsSchema` state this. Requests are still refused
  with 500, because the gate tests for an absent schema first.
- `shouldUpdateSchema` takes only the candidate schema, not the current one.

## Model

| member | source | states |
|---|---|---|
| `ErrorClassification.Includes` | src/error/DetermineValidationOrIntrospectionDisabledError.ts:14-15 | the left-to-right scan returns true exactly when the substring occurs at some position of the message (the `exists` definition) |
| `ErrorClassification.DetermineValidationOrIntrospectionDisabledError` | src/error/DetermineValidationOrIntrospectionDisabledError.ts:13-15 | total; the label is introspection-disabled iff the value is an Error whose message contains both "introspection" and "disabled" (the non-empty test is implied); a non-Error always gets the validation label |
| `ErrorClassification.EmptyMessageIsValidationError` | src/error/DetermineValidationOrIntrospectionDisabledError.ts:14 | an Error with an empty message is a validation error |
| `ErrorClassification.CapitalisedWordsAreNotMatched` | src/error/DetermineValidationOrIntrospectionDisabledError.ts:14-15 | matching is case-sensitive: "Introspection Disabled" is a validation error |
| `ErrorClassification.EitherOrderIsIntrospectionDisabled` | src/error/DetermineValidationOrIntrospectionDisabledError.ts:14-15 | any message containing the two words, in either order and with any text around and between them, is introspection-disabled |
| `ErrorClassification.ExtendedMessageKeepsLabel` | src/error/DetermineValidationOrIntrospectionDisabledError.ts:14-15 | adding text on either side of an introspection-disabled message keeps the label |
| `Server.ValidationLog` | src/server/GraphQLServer.ts:49-54 | no entries for an empty error list; otherwise one more entry than there are errors, the validation warning first |
| `Server.SetSchemaLog` | src/server/GraphQLServer.ts:41-58 | an install logs the attempt first; its length is the attempt, the optional debug entry, then one rejection warning or, for an accepted present schema with errors, the warning and one entry per error; a rejected install ends with the rejection warning |
| `Server.SendResponseLog` | src/server/GraphQLServer.ts:117-124 | with debug on, one entry for the prepared response plus one per custom header; with debug off, none |
| `Server.HandleRequestLog` | src/server/GraphQLServer.ts:73-124 | with debug on, one create-response entry for a data reply, one prepared-response entry and one per custom header; with debug off, none |
| `Server.ApplyHeaders` | src/server/GraphQLServer.ts:120-124 | setting the custom headers in turn never removes a header name |
| `Server.ResponseHeaders` | src/server/GraphQLServer.ts:118-124 | after sending, Content-Type is present and no earlier header name is lost |
| `Server.RequestReply` | src/server/GraphQLServer.ts:73-110 | the gate's status is 200, 405 or 500; 405 exactly for a method other than GET or POST; 200 exactly for GET or POST with a present schema and no validation errors; the body is an error result exactly when the status is not 200; a custom header is sent exactly with 405 |
| `Server.ServerResponse.constructor` | src/server/GraphQLServer.ts:14 | a fresh transport response: status 200 (Node's default), no header, not ended |
| `Server.DefaultShouldUpdateSchema` | src/server/GraphQLServer.ts:61-67 | the default decision accepts exactly the present schemas |
| `Server.DebugIfEnabled` | src/server/GraphQLServer.ts:129-133 | one debug entry carrying the event when debug is on, none otherwise |
| `Server.ErrorLog` | src/server/GraphQLServer.ts:51-53 | exactly one error entry per validation error |
| `Server.ErrorLogInOrder` | src/server/GraphQLServer.ts:51-53 | the i-th error entry carries the i-th validation error, so entries follow list order |
| `Server.HeaderDebugLog` | src/server/GraphQLServer.ts:120-124 | with debug on, one entry per custom header; with debug off, none |
| `Server.HeaderDebugLogInOrder` | src/server/GraphQLServer.ts:120-124 | with debug on, the i-th entry reports the i-th custom header and its value |
| `Server.ApplyHeadersKeys` | src/server/GraphQLServer.ts:120-124 | after the custom headers are set, the header names are the old ones plus every custom header name |
| `Server.ValidationLogShape` | src/server/GraphQLServer.ts:49-54 | no validation entries for an empty error list; otherwise one warning first, then only error entries, one per validation error in list order |
| `Server.AcceptedInstallLog` | src/server/GraphQLServer.ts:41-55 | an accepted install of a present schema logs the attempt, then the optional debug entry; one warning appears iff the error list is non-empty, followed by one error entry per validation error in list order |
| `Server.RejectedInstallLog` | src/server/GraphQLServer.ts:41-58 | a rejected install logs exactly the attempt, then the schema debug entry when debug is on, then the rejection warning; no error entry |
| `Server.SetSchemaDebugOnlyWhenEnabled` | src/server/GraphQLServer.ts:41-59 | the only debug entry of an install is the schema entry right after the attempt, and it is present iff debug is on |
| `Server.SendResponseLogShape` | src/server/GraphQLServer.ts:117-124 | without debug, sending logs nothing; with debug, it logs the prepared response, then one entry per custom header in order |
| `Server.LastHeaderWins` | src/server/GraphQLServer.ts:120-124 | a custom header whose name is not repeated later is set to its value, overriding an earlier same-named header |
| `Server.UntouchedHeaderKept` | src/server/GraphQLServer.ts:120-124 | a header named by no custom header keeps its presence and its value |
| `Server.ResponseHeadersUntouched` | src/server/GraphQLServer.ts:118-125 | Content-Type is the JSON UTF-8 type unless a custom header overrides it; any other header not named by a custom header is left as it was |
| `Server.MethodNotAllowedReply` | src/server/GraphQLServer.ts:74-80 | a method other than GET or POST gives 405, the single error "GraphQL server only supports GET and POST requests.", Allow set to "GET, POST", the JSON Content-Type, and no other new header |
| `Server.MethodCheckIgnoresSchema` | src/server/GraphQLServer.ts:73-85 | for a refused method the reply is the same whatever the schema and its errors |
| `Server.InvalidSchemaReply` | src/server/GraphQLServer.ts:82-85 | GET or POST with an absent schema or non-empty errors gives 500 and the single invalid-schema error, and sets only Content-Type (no Allow header) |
| `Server.AcceptedRequestReply` | src/server/GraphQLServer.ts:106-109 | GET or POST with a present, error-free schema gives 200 and exactly the data `{response: 'hello world'}`, with only Content-Type set |
| `Server.GraphQLServer.constructor` | src/server/GraphQLServer.ts:17-26 | field defaults (fallback logger, debug off, default validation, no schema, no errors), then the effect of `setOptions(options)`; `validatedBy` is the function that validated an installed schema, else `validateSchema`, and the registry invariant holds |
| `Server.GraphQLServer.SetOptions` | src/server/GraphQLServer.ts:28-35 | no options: nothing changes; options: the logger defaults to the fallback, debug to false, the validation function to `validateSchema`, and the schema goes through `setSchema` with these, so options without a schema keep the previous schema under the default decision; `validatedBy` changes only when a present schema is installed; the registry invariant is kept |
| `Server.GraphQLServer.GetSchema` | src/server/GraphQLServer.ts:37-39 | returns the installed schema |
| `Server.GraphQLServer.SetSchema` | src/server/GraphQLServer.ts:41-59 | accepted: the schema becomes the candidate and, if present, the errors become exactly the validation function's result for it; rejected: schema and errors unchanged; the log grows by exactly the install trace; `validatedBy` becomes the validation function exactly when a present schema is installed, so the registry invariant is kept with respect to that function |
| `Server.GraphQLServer.LogSchemaValidationErrors` | src/server/GraphQLServer.ts:51-53 | the loop appends one error entry per stored validation error, in order |
| `Server.GraphQLServer.GetSchemaValidationErrors` | src/server/GraphQLServer.ts:69-71 | returns the stored errors, which for a present schema are its validation result (never stale) |
| `Server.GraphQLServer.HandleRequest` | src/server/GraphQLServer.ts:73-110 | the response gets the status, headers and body of the gate's reply for the request method and the current schema state, and the log grows by the debug trace |
| `Server.GraphQLServer.SendResponse` | src/server/GraphQLServer.ts:112-127 | status = the argument (default 200); headers = old headers, then Content-Type JSON, then the custom headers in order; body = the execution result; log grows by the debug trace |
| `Server.GraphQLServer.LogDebugIfEnabled` | src/server/GraphQLServer.ts:129-133 | appends a debug entry exactly when debug is on |
| `Server.GraphQLServer.SendInvalidSchemaResponse` | src/server/GraphQLServer.ts:135-140 | sends 500 with the single error "Request cannot be processed. Schema in GraphQL server is invalid." and no custom header |
| `ServerScenarios.SetSchemaTwice` | src/server/GraphQLServer.ts:44-48 | installing the same candidate twice leaves schema and errors as installing it once |
| `ServerScenarios.UpdateReplacesSchema` | tests/server/GraphQLServer.test.ts:47-55 | a later install replaces the constructed schema; the errors reported are the new schema's |
| `ServerScenarios.AbsentSchemaIsRejected` | tests/server/GraphQLServer.test.ts:57-64 | under the default decision an absent schema leaves the constructed schema and its errors and logs the rejection warning last |
| `ServerScenarios.AlwaysUpdateClearsSchema` | tests/server/GraphQLServer.test.ts:66-75 | with a decision that accepts everything, an absent schema clears the schema (the previous errors remain) |
| `ServerScenarios.PutIsRefused` | tests/server/GraphQLServer.handleRequest.integration.test.ts:54-62 | a PUT gets 405, the method error, and exactly the headers Content-Type and Allow "GET, POST" |

## Left out

- Serialisation: `JSON.stringify` of debug messages and the UTF-8 `Buffer` handed to `response.end`. The schema and prepared-response debug entries carry the values `JSON.stringify` would render; the create-response entry carries the text `[object Object]` that the template literal at src/server/GraphQLServer.ts:108 makes of the payload. `end` is modelled as storing the execution result in `ServerResponse.body`.
- HTTP plumbing: `IncomingMessage`/`ServerResponse` beyond the status, header table and body; `async`/`Promise`; Node's case-insensitive header names; `String(value)` on header values (values are already strings); the `customHeaders != null` test (the header list cannot be null here).
- The graphql library: `validateSchema` is a function value given to the constructor, so the message "Query root type must be provided." from the tests cannot be stated. `GraphQLError` is reduced to its message.
- The values of the label constants `INTROSPECTION_DISABLED_ERROR` and `VALIDATION_ERROR`: they are imported from the package index, which is not part of this model. The labels are the two constructors of `ErrorLabel`.
- The logger's behaviour: the `TextLogger` fallback singleton is represented only by its name and service (`FALLBACK_LOGGER`). Logger interfaces (`src/logger/Logger.ts`) and metrics (`src/metrics/MetricsClient.ts`) contain no logic.
- Overriding `shouldUpdateSchema` by subclassing is modelled as a function passed to the constructor (default `DefaultShouldUpdateSchema`). An overriding method in the code can read `this`, for example the current schema; the model's decision sees only the candidate. `ServerScenarios.SetSchemaTwice` holds for every decision only because of this.
- Options the shown server never reads (`requestInformationExtractor`, `parseFunction`, `validateFunction`). `SendInvalidSchemaResponse` keeps its `request` argument, which it does not use, as the code does.
- Custom headers: the object walked with `Object.entries` (src/server/GraphQLServer.ts:115, 121) is modelled as the list `seq<Header>` of its entries. The model does not capture that object keys are unique or that integer-like keys are enumerated first; a list with repeated names is allowed, and `LastHeaderWins` says how it resolves.
- The pipeline stages that exist only as comments (src/server/GraphQLServer.ts:87-103), and the newer API used by some tests (`executeRequest`, response handlers, metrics options, a `shouldUpdateSchemaFunction` option, `handleRequest(request)` returning a value).
- Concurrency: the code does not serialise schema installs, and the model is sequential.
