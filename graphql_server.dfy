/** The GraphQL server of src/server/GraphQLServer.ts: a registry holding the
    current schema and its validation errors, a request gate in front of the
    (not yet implemented) execution pipeline, and the code that writes a
    response. The logger is represented by the trace of entries it receives. */
module Server {
  import opened Wrappers

  /** A GraphQL schema. The server never looks inside one; it only stores it
      and hands it to the validation function. */
  datatype Schema = Schema(description: string, typeDefinitions: seq<string>)

  /** A GraphQLError, reduced to its message. */
  datatype GraphQLError = GraphQLError(message: string)

  /** Identifies the logger an entry was sent to. */
  datatype Logger = Logger(loggerName: string, serviceName: string)

  /** The logger used when no logger is configured. */
  const FALLBACK_LOGGER := Logger("fallback-logger", "fallback-service")

  /** A header name and value. */
  type Header = (string, string)

  /** The body handed to `response.end`, before serialisation. */
  datatype ExecutionResult =
    | DataResult(data: map<string, string>)
    | ErrorResult(errors: seq<GraphQLError>)

  /** Debug messages. `SchemaIs` and `PreparingResponse` embed a JSON
      rendering of their values; `CreateResponse` embeds the data object
      through a template literal, which yields the text `[object Object]`. */
  datatype DebugEvent =
    | SchemaIs(schema: Option<Schema>)
    | CreateResponse(rendered: string)
    | PreparingResponse(result: ExecutionResult, statusCode: int, customHeaders: seq<Header>)
    | SetCustomHeader(key: string, value: string)

  datatype LogRecord =
    | Debug(event: DebugEvent)
    | Info(message: string)
    | Warn(message: string)
    | Error(message: string, error: GraphQLError)

  datatype LogEntry = LogEntry(logger: Logger, record: LogRecord)

  /** The options the server reads; every field is optional. */
  datatype GraphQLServerOptions = GraphQLServerOptions(
    logger: Option<Logger>,
    debug: Option<bool>,
    schema: Option<Schema>,
    schemaValidationFunction: Option<Schema -> seq<GraphQLError>>)

  /** An incoming request; only its method is inspected. */
  datatype Request = Request(requestMethod: string, url: string)

  const UPDATE_ATTEMPT_MESSAGE := "Trying to update graphql schema"
  const VALIDATION_FAILED_MESSAGE :=
    "Schema validation failed with errors. Please check the GraphQL schema and fix potential issues."
  const VALIDATION_ERROR_MESSAGE := "A schema validation error occurred: "
  const UPDATE_REJECTED_MESSAGE :=
    "Schema update was rejected because condition set in \"shouldUpdateSchema\" check was not fulfilled."
  const METHOD_NOT_ALLOWED_MESSAGE := "GraphQL server only supports GET and POST requests."
  const INVALID_SCHEMA_MESSAGE := "Request cannot be processed. Schema in GraphQL server is invalid."
  const CONTENT_TYPE := "Content-Type"
  const JSON_CONTENT_TYPE := "application/json; charset=utf-8"
  const ALLOW := "Allow"
  const ALLOWED_METHODS := "GET, POST"

  /** The placeholder payload `{response: 'hello world'}`. */
  const EXAMPLE_RESPONSE_DATA := map["response" := "hello world"]

  /** What a template literal makes of a plain object such as the payload. */
  const PLAIN_OBJECT_TEXT := "[object Object]"

  /** The default `shouldUpdateSchema`: update only to a present schema. */
  function DefaultShouldUpdateSchema(schema: Option<Schema>): (update: bool)
    ensures update <==> schema != None
  {
    schema.Some?
  }

  // ---------------------------------------------------------------------------
  // Log traces

  /** `logDebugIfEnabled`: one debug entry when debugging is on, none otherwise. */
  function DebugIfEnabled(debug: bool, logger: Logger, event: DebugEvent): (entries: seq<LogEntry>)
    ensures |entries| == (if debug then 1 else 0)
    ensures debug ==> entries[0] == LogEntry(logger, Debug(event))
  {
    if debug then [LogEntry(logger, Debug(event))] else []
  }

  /** One error entry per schema validation error, in list order. */
  function ErrorLog(logger: Logger, errors: seq<GraphQLError>): (entries: seq<LogEntry>)
    ensures |entries| == |errors|
    decreases |errors|
  {
    if errors == [] then []
    else ErrorLog(logger, errors[..|errors| - 1])
         + [LogEntry(logger, Error(VALIDATION_ERROR_MESSAGE, errors[|errors| - 1]))]
  }

  /** The i-th error entry carries the i-th validation error. */
  lemma {:induction false} ErrorLogInOrder(logger: Logger, errors: seq<GraphQLError>)
    ensures forall i :: 0 <= i < |errors| ==>
              ErrorLog(logger, errors)[i] == LogEntry(logger, Error(VALIDATION_ERROR_MESSAGE, errors[i]))
    decreases |errors|
  {
    if errors != [] {
      ErrorLogInOrder(logger, errors[..|errors| - 1]);
    }
  }

  /** What an accepted install of a present schema logs about its validation. */
  function ValidationLog(logger: Logger, errors: seq<GraphQLError>): (entries: seq<LogEntry>)
    ensures |entries| == (if errors == [] then 0 else 1 + |errors|)
    ensures errors != [] ==> entries[0] == LogEntry(logger, Warn(VALIDATION_FAILED_MESSAGE))
  {
    if |errors| > 0 then [LogEntry(logger, Warn(VALIDATION_FAILED_MESSAGE))] + ErrorLog(logger, errors)
    else []
  }

  /** Everything `setSchema(schema)` logs, given whether the update was
      accepted and the validation errors then stored. */
  function SetSchemaLog(logger: Logger, debug: bool, schema: Option<Schema>, accepted: bool,
                        errors: seq<GraphQLError>): (entries: seq<LogEntry>)
    ensures |entries| == (if debug then 2 else 1)
                         + (if !accepted then 1 else if schema.Some? && errors != [] then 1 + |errors| else 0)
    ensures entries[0] == LogEntry(logger, Info(UPDATE_ATTEMPT_MESSAGE))
    ensures !accepted ==> entries[|entries| - 1] == LogEntry(logger, Warn(UPDATE_REJECTED_MESSAGE))
  {
    [LogEntry(logger, Info(UPDATE_ATTEMPT_MESSAGE))]
    + DebugIfEnabled(debug, logger, SchemaIs(schema))
    + (if !accepted then [LogEntry(logger, Warn(UPDATE_REJECTED_MESSAGE))]
       else if schema.Some? then ValidationLog(logger, errors)
       else [])
  }

  /** The debug entries `sendResponse` emits while it sets the custom headers. */
  function HeaderDebugLog(debug: bool, logger: Logger, customHeaders: seq<Header>): (entries: seq<LogEntry>)
    ensures |entries| == (if debug then |customHeaders| else 0)
    decreases |customHeaders|
  {
    if customHeaders == [] then []
    else
      var (key, value) := customHeaders[|customHeaders| - 1];
      HeaderDebugLog(debug, logger, customHeaders[..|customHeaders| - 1])
      + DebugIfEnabled(debug, logger, SetCustomHeader(key, value))
  }

  /** With debugging on, the i-th entry reports the i-th custom header. */
  lemma {:induction false} HeaderDebugLogInOrder(debug: bool, logger: Logger, customHeaders: seq<Header>)
    requires debug
    ensures forall i :: 0 <= i < |customHeaders| ==>
              HeaderDebugLog(debug, logger, customHeaders)[i]
              == LogEntry(logger, Debug(SetCustomHeader(customHeaders[i].0, customHeaders[i].1)))
    decreases |customHeaders|
  {
    if customHeaders != [] {
      HeaderDebugLogInOrder(debug, logger, customHeaders[..|customHeaders| - 1]);
    }
  }

  /** Everything `sendResponse` logs. */
  function SendResponseLog(debug: bool, logger: Logger, result: ExecutionResult, statusCode: int,
                           customHeaders: seq<Header>): (entries: seq<LogEntry>)
    ensures |entries| == (if debug then 1 + |customHeaders| else 0)
  {
    DebugIfEnabled(debug, logger, PreparingResponse(result, statusCode, customHeaders))
    + HeaderDebugLog(debug, logger, customHeaders)
  }

  /** Regrouping a concatenation; stated once so the methods that extend the
      log need not re-derive it inside their own larger proofs. */
  lemma AppendIsAssociative<T>(a: seq<T>, b: seq<T>, c: seq<T>)
    ensures (a + b) + c == a + (b + c)
  {
  }

  // ---------------------------------------------------------------------------
  // Responses

  /** The header table after `setHeader(key, value)` for each custom header in
      turn: a later header replaces an earlier one of the same name. */
  function ApplyHeaders(headers: map<string, string>, customHeaders: seq<Header>): (sent: map<string, string>)
    ensures headers.Keys <= sent.Keys
    decreases |customHeaders|
  {
    if customHeaders == [] then headers
    else
      var (key, value) := customHeaders[|customHeaders| - 1];
      ApplyHeaders(headers, customHeaders[..|customHeaders| - 1])[key := value]
  }

  /** The header names afterwards are the old ones plus every custom one. */
  lemma {:induction false} ApplyHeadersKeys(headers: map<string, string>, customHeaders: seq<Header>)
    ensures ApplyHeaders(headers, customHeaders).Keys
            == headers.Keys + set i | 0 <= i < |customHeaders| :: customHeaders[i].0
    decreases |customHeaders|
  {
    if customHeaders != [] {
      var n := |customHeaders|;
      ApplyHeadersKeys(headers, customHeaders[..n - 1]);
      var prefix := customHeaders[..n - 1];
      assert (set i | 0 <= i < n :: customHeaders[i].0)
             == (set i | 0 <= i < n - 1 :: prefix[i].0) + {customHeaders[n - 1].0};
    }
  }

  /** The header table `sendResponse` leaves: Content-Type first, then the
      custom headers. */
  function ResponseHeaders(headers: map<string, string>, customHeaders: seq<Header>): (sent: map<string, string>)
    ensures CONTENT_TYPE in sent && headers.Keys <= sent.Keys
  {
    ApplyHeaders(headers[CONTENT_TYPE := JSON_CONTENT_TYPE], customHeaders)
  }

  /** What `handleRequest` passes to `sendResponse`. */
  datatype Reply = Reply(result: ExecutionResult, statusCode: int, customHeaders: seq<Header>)

  /** The request gate: a method other than GET or POST is refused with 405,
      then an absent or invalid schema with 500; otherwise the placeholder data
      is sent with the default status 200 and no custom headers. */
  function RequestReply(requestMethod: string, schema: Option<Schema>, errors: seq<GraphQLError>): (reply: Reply)
    ensures reply.statusCode in {200, 405, 500}
    ensures reply.statusCode == 405 <==> requestMethod != "GET" && requestMethod != "POST"
    ensures reply.statusCode == 200 <==>
              (requestMethod == "GET" || requestMethod == "POST") && schema.Some? && errors == []
    ensures reply.result.ErrorResult? <==> reply.statusCode != 200
    ensures reply.customHeaders != [] <==> reply.statusCode == 405
  {
    if requestMethod != "GET" && requestMethod != "POST" then
      Reply(ErrorResult([GraphQLError(METHOD_NOT_ALLOWED_MESSAGE)]), 405, [(ALLOW, ALLOWED_METHODS)])
    else if schema.None? || |errors| > 0 then
      Reply(ErrorResult([GraphQLError(INVALID_SCHEMA_MESSAGE)]), 500, [])
    else
      Reply(DataResult(EXAMPLE_RESPONSE_DATA), 200, [])
  }

  /** Everything `handleRequest` logs. */
  function HandleRequestLog(debug: bool, logger: Logger, reply: Reply): (entries: seq<LogEntry>)
    ensures |entries| == (if debug then (if reply.result.DataResult? then 2 else 1) + |reply.customHeaders| else 0)
  {
    (if reply.result.DataResult? then DebugIfEnabled(debug, logger, CreateResponse(PLAIN_OBJECT_TEXT)) else [])
    + SendResponseLog(debug, logger, reply.result, reply.statusCode, reply.customHeaders)
  }

  // ---------------------------------------------------------------------------
  // Properties of the log traces

  /** The validation part of an install log: nothing for an empty error
      list; otherwise one warning, then one error entry per validation error
      in list order. */
  lemma ValidationLogShape(logger: Logger, errors: seq<GraphQLError>)
    ensures var entries := ValidationLog(logger, errors);
            && |entries| == (if errors == [] then 0 else 1 + |errors|)
            && (errors != [] ==> entries[0] == LogEntry(logger, Warn(VALIDATION_FAILED_MESSAGE)))
            && (forall i :: 0 <= i < |errors| ==>
                  entries[1 + i] == LogEntry(logger, Error(VALIDATION_ERROR_MESSAGE, errors[i])))
            && (forall i :: 0 < i < |entries| ==> entries[i].record.Error?)
  {
    ErrorLogInOrder(logger, errors);
    var entries := ValidationLog(logger, errors);
    if errors != [] {
      forall i | 0 <= i < |errors|
        ensures entries[1 + i] == LogEntry(logger, Error(VALIDATION_ERROR_MESSAGE, errors[i]))
      {
        assert entries[1 + i] == ErrorLog(logger, errors)[i];
      }
    }
  }

  /** An accepted install of a present schema logs the attempt, the optional
      debug entry, then one warning exactly when there are validation errors,
      followed by one error entry per validation error in list order. */
  lemma AcceptedInstallLog(logger: Logger, debug: bool, schema: Schema, errors: seq<GraphQLError>)
    ensures var entries := SetSchemaLog(logger, debug, Some(schema), true, errors);
            var start := if debug then 2 else 1;
            && |entries| == start + (if errors == [] then 0 else 1 + |errors|)
            && entries[0] == LogEntry(logger, Info(UPDATE_ATTEMPT_MESSAGE))
            && (errors != [] ==> entries[start] == LogEntry(logger, Warn(VALIDATION_FAILED_MESSAGE)))
            && (forall i :: 0 <= i < |entries| && entries[i].record.Warn? ==> i == start && errors != [])
            && (forall i :: 0 <= i < |errors| ==>
                  entries[start + 1 + i] == LogEntry(logger, Error(VALIDATION_ERROR_MESSAGE, errors[i])))
  {
    var entries := SetSchemaLog(logger, debug, Some(schema), true, errors);
    var start := if debug then 2 else 1;
    var header := [LogEntry(logger, Info(UPDATE_ATTEMPT_MESSAGE))] + DebugIfEnabled(debug, logger, SchemaIs(Some(schema)));
    var tail := ValidationLog(logger, errors);
    ValidationLogShape(logger, errors);
    assert entries == header + tail;
    assert |header| == start;
    forall i | 0 <= i < |entries| && entries[i].record.Warn?
      ensures i == start && errors != []
    {
      if i >= start {
        assert entries[i] == tail[i - start];
      }
    }
    forall i | 0 <= i < |errors|
      ensures entries[start + 1 + i] == LogEntry(logger, Error(VALIDATION_ERROR_MESSAGE, errors[i]))
    {
      assert entries[start + 1 + i] == tail[1 + i];
    }
  }

  /** A rejected install logs the attempt, the optional debug entry and the
      rejection warning, and no validation entry. */
  lemma RejectedInstallLog(logger: Logger, debug: bool, schema: Option<Schema>, errors: seq<GraphQLError>)
    ensures var entries := SetSchemaLog(logger, debug, schema, false, errors);
            && |entries| == (if debug then 3 else 2)
            && entries[0] == LogEntry(logger, Info(UPDATE_ATTEMPT_MESSAGE))
            && (debug ==> entries[1] == LogEntry(logger, Debug(SchemaIs(schema))))
            && entries[|entries| - 1] == LogEntry(logger, Warn(UPDATE_REJECTED_MESSAGE))
            && forall i :: 0 <= i < |entries| ==> !entries[i].record.Error?
  {
  }

  /** `setSchema` emits a debug entry only when debugging is on, and then
      exactly one, right after the attempt notice. */
  lemma SetSchemaDebugOnlyWhenEnabled(logger: Logger, debug: bool, schema: Option<Schema>, accepted: bool,
                                      errors: seq<GraphQLError>)
    ensures var entries := SetSchemaLog(logger, debug, schema, accepted, errors);
            && (forall i :: 0 <= i < |entries| && entries[i].record.Debug? ==> debug && i == 1)
            && (debug ==> entries[1] == LogEntry(logger, Debug(SchemaIs(schema))))
  {
    ErrorLogInOrder(logger, errors);
    var entries := SetSchemaLog(logger, debug, schema, accepted, errors);
    var header := [LogEntry(logger, Info(UPDATE_ATTEMPT_MESSAGE))] + DebugIfEnabled(debug, logger, SchemaIs(schema));
    var tail := entries[|header|..];
    assert entries == header + tail;
    forall i | 0 <= i < |tail| ensures !tail[i].record.Debug? {
      if accepted && schema.Some? && errors != [] && i > 0 {
        assert tail[i] == ErrorLog(logger, errors)[i - 1];
      }
    }
  }

  /** `sendResponse` logs nothing unless debugging is on; with debugging on it
      logs what it prepares, then one entry per custom header in order. */
  lemma SendResponseLogShape(debug: bool, logger: Logger, result: ExecutionResult, statusCode: int,
                             customHeaders: seq<Header>)
    ensures var entries := SendResponseLog(debug, logger, result, statusCode, customHeaders);
            && (!debug ==> entries == [])
            && (debug ==>
                  && |entries| == 1 + |customHeaders|
                  && entries[0] == LogEntry(logger, Debug(PreparingResponse(result, statusCode, customHeaders)))
                  && forall i :: 0 <= i < |customHeaders| ==>
                       entries[1 + i] == LogEntry(logger, Debug(SetCustomHeader(customHeaders[i].0, customHeaders[i].1))))
  {
    var entries := SendResponseLog(debug, logger, result, statusCode, customHeaders);
    if debug {
      HeaderDebugLogInOrder(debug, logger, customHeaders);
      forall i | 0 <= i < |customHeaders|
        ensures entries[1 + i] == LogEntry(logger, Debug(SetCustomHeader(customHeaders[i].0, customHeaders[i].1)))
      {
        assert entries[1 + i] == HeaderDebugLog(debug, logger, customHeaders)[i];
      }
    }
  }

  // ---------------------------------------------------------------------------
  // Properties of the headers and of the request gate

  /** A custom header not repeated later in the list ends up with its value. */
  lemma {:induction false} LastHeaderWins(headers: map<string, string>, customHeaders: seq<Header>, i: nat)
    requires i < |customHeaders|
    requires forall j :: i < j < |customHeaders| ==> customHeaders[j].0 != customHeaders[i].0
    ensures customHeaders[i].0 in ApplyHeaders(headers, customHeaders)
    ensures ApplyHeaders(headers, customHeaders)[customHeaders[i].0] == customHeaders[i].1
    decreases |customHeaders|
  {
    var n := |customHeaders|;
    if i < n - 1 {
      LastHeaderWins(headers, customHeaders[..n - 1], i);
    }
  }

  /** A header that no custom header names keeps its presence and value. */
  lemma {:induction false} UntouchedHeaderKept(headers: map<string, string>, customHeaders: seq<Header>, key: string)
    requires forall j :: 0 <= j < |customHeaders| ==> customHeaders[j].0 != key
    ensures key in ApplyHeaders(headers, customHeaders) <==> key in headers
    ensures key in headers ==> ApplyHeaders(headers, customHeaders)[key] == headers[key]
    decreases |customHeaders|
  {
    if customHeaders != [] {
      UntouchedHeaderKept(headers, customHeaders[..|customHeaders| - 1], key);
    }
  }

  /** `sendResponse` leaves Content-Type at the JSON type unless a custom
      header of that name overrides it, and touches no header that is neither
      Content-Type nor a custom one. */
  lemma ResponseHeadersUntouched(headers: map<string, string>, customHeaders: seq<Header>, key: string)
    requires forall j :: 0 <= j < |customHeaders| ==> customHeaders[j].0 != key
    ensures key == CONTENT_TYPE ==>
              key in ResponseHeaders(headers, customHeaders)
              && ResponseHeaders(headers, customHeaders)[key] == JSON_CONTENT_TYPE
    ensures key != CONTENT_TYPE ==>
              && (key in ResponseHeaders(headers, customHeaders) <==> key in headers)
              && (key in headers ==> ResponseHeaders(headers, customHeaders)[key] == headers[key])
  {
    UntouchedHeaderKept(headers[CONTENT_TYPE := JSON_CONTENT_TYPE], customHeaders, key);
  }

  /** A method other than GET or POST is refused with 405, the single
      method error and `Allow: GET, POST`, whatever the schema state. */
  lemma MethodNotAllowedReply(requestMethod: string, schema: Option<Schema>, errors: seq<GraphQLError>,
                              headers: map<string, string>)
    requires requestMethod != "GET" && requestMethod != "POST"
    ensures var reply := RequestReply(requestMethod, schema, errors);
            var sent := ResponseHeaders(headers, reply.customHeaders);
            && reply.statusCode == 405
            && reply.result == ErrorResult([GraphQLError(METHOD_NOT_ALLOWED_MESSAGE)])
            && ALLOW in sent && sent[ALLOW] == ALLOWED_METHODS
            && CONTENT_TYPE in sent && sent[CONTENT_TYPE] == JSON_CONTENT_TYPE
            && sent.Keys == headers.Keys + {CONTENT_TYPE, ALLOW}
  {
    var reply := RequestReply(requestMethod, schema, errors);
    ApplyHeadersKeys(headers[CONTENT_TYPE := JSON_CONTENT_TYPE], reply.customHeaders);
    LastHeaderWins(headers[CONTENT_TYPE := JSON_CONTENT_TYPE], reply.customHeaders, 0);
    ResponseHeadersUntouched(headers, reply.customHeaders, CONTENT_TYPE);
  }

  /** The method check comes first: for a refused method the reply does not
      depend on the schema or its validation errors. */
  lemma MethodCheckIgnoresSchema(requestMethod: string, schema1: Option<Schema>, errors1: seq<GraphQLError>,
                                 schema2: Option<Schema>, errors2: seq<GraphQLError>)
    requires requestMethod != "GET" && requestMethod != "POST"
    ensures RequestReply(requestMethod, schema1, errors1) == RequestReply(requestMethod, schema2, errors2)
  {
  }

  /** GET or POST with an absent schema or a non-empty error list is refused
      with 500 and the single invalid-schema error, and adds no Allow header. */
  lemma InvalidSchemaReply(requestMethod: string, schema: Option<Schema>, errors: seq<GraphQLError>,
                           headers: map<string, string>)
    requires requestMethod == "GET" || requestMethod == "POST"
    requires schema.None? || errors != []
    ensures var reply := RequestReply(requestMethod, schema, errors);
            var sent := ResponseHeaders(headers, reply.customHeaders);
            && reply.statusCode == 500
            && reply.result == ErrorResult([GraphQLError(INVALID_SCHEMA_MESSAGE)])
            && (ALLOW in sent <==> ALLOW in headers)
            && sent == headers[CONTENT_TYPE := JSON_CONTENT_TYPE]
  {
  }

  /** GET or POST with a present schema and no validation errors gets 200 and
      the placeholder data. */
  lemma AcceptedRequestReply(requestMethod: string, schema: Schema, headers: map<string, string>)
    requires requestMethod == "GET" || requestMethod == "POST"
    ensures var reply := RequestReply(requestMethod, Some(schema), []);
            && reply.statusCode == 200
            && reply.result == DataResult(map["response" := "hello world"])
            && ResponseHeaders(headers, reply.customHeaders) == headers[CONTENT_TYPE := JSON_CONTENT_TYPE]
  {
  }

  /** The transport response object that `sendResponse` writes to. */
  class ServerResponse {
    var statusCode: int
    var headers: map<string, string>
    /** What was passed to `end`, if anything. */
    var body: Option<ExecutionResult>

    constructor ()
      ensures statusCode == 200 && headers == map[] && body == None
    {
      statusCode := 200;
      headers := map[];
      body := None;
    }
  }

  // ---------------------------------------------------------------------------
  // The server

  class GraphQLServer {
    var logger: Logger
    var debug: bool
    var schema: Option<Schema>
    var schemaValidationFunction: Schema -> seq<GraphQLError>
    var schemaValidationErrors: seq<GraphQLError>
    /** The entries received by the loggers, oldest first. */
    var log: seq<LogEntry>

    /** The graphql library's `validateSchema`, the default validation function. */
    const validateSchema: Schema -> seq<GraphQLError>
    /** The overridable `shouldUpdateSchema` decision. */
    const shouldUpdateSchema: Option<Schema> -> bool

    /** The validation function in force when the current schema was installed. */
    ghost var validatedBy: Schema -> seq<GraphQLError>

    /** The stored errors are those of the current schema, never stale ones. */
    ghost predicate Valid()
      reads this
    {
      schema.Some? ==> schemaValidationErrors == validatedBy(schema.value)
    }

    /** Field defaults, then `setOptions(options)`. */
    constructor (options: Option<GraphQLServerOptions>,
                 validateSchema: Schema -> seq<GraphQLError>,
                 shouldUpdateSchema: Option<Schema> -> bool := DefaultShouldUpdateSchema)
      ensures Valid()
      ensures this.validateSchema == validateSchema && this.shouldUpdateSchema == shouldUpdateSchema
      ensures validatedBy ==
                (if options.Some? && shouldUpdateSchema(options.value.schema) && options.value.schema.Some?
                 then schemaValidationFunction else validateSchema)
      ensures options.None? ==>
                && logger == FALLBACK_LOGGER && !debug && schemaValidationFunction == validateSchema
                && schema == None && schemaValidationErrors == [] && log == []
      ensures options.Some? ==>
                var o := options.value;
                var accepted := shouldUpdateSchema(o.schema);
                && logger == o.logger.GetOr(FALLBACK_LOGGER)
                && debug == (o.debug == Some(true))
                && schemaValidationFunction == o.schemaValidationFunction.GetOr(validateSchema)
                && schema == (if accepted then o.schema else None)
                && schemaValidationErrors ==
                     (if accepted && o.schema.Some? then schemaValidationFunction(o.schema.value) else [])
                && log == SetSchemaLog(logger, debug, o.schema, accepted, schemaValidationErrors)
    {
      this.validateSchema := validateSchema;
      this.shouldUpdateSchema := shouldUpdateSchema;
      logger := FALLBACK_LOGGER;
      debug := false;
      schema := None;
      schemaValidationFunction := validateSchema;
      schemaValidationErrors := [];
      log := [];
      validatedBy := validateSchema;
      new;
      SetOptions(options);
    }

    /** Without options nothing changes; with options the logger, the debug
        flag and the validation function are replaced (each defaulting), and
        the schema goes through `setSchema`. */
    method SetOptions(options: Option<GraphQLServerOptions>)
      requires Valid()
      modifies this`logger, this`debug, this`schemaValidationFunction, this`schema,
               this`schemaValidationErrors, this`validatedBy, this`log
      ensures Valid()
      ensures options.None? ==>
                && logger == old(logger) && debug == old(debug)
                && schemaValidationFunction == old(schemaValidationFunction)
                && schema == old(schema) && schemaValidationErrors == old(schemaValidationErrors)
                && log == old(log)
      ensures validatedBy ==
                (if options.Some? && shouldUpdateSchema(options.value.schema) && options.value.schema.Some?
                 then schemaValidationFunction else old(validatedBy))
      ensures options.Some? ==>
                var o := options.value;
                var accepted := shouldUpdateSchema(o.schema);
                && logger == o.logger.GetOr(FALLBACK_LOGGER)
                && debug == (o.debug == Some(true))
                && schemaValidationFunction == o.schemaValidationFunction.GetOr(validateSchema)
                && schema == (if accepted then o.schema else old(schema))
                && schemaValidationErrors ==
                     (if accepted && o.schema.Some? then schemaValidationFunction(o.schema.value)
                      else old(schemaValidationErrors))
                && log == old(log) + SetSchemaLog(logger, debug, o.schema, accepted, schemaValidationErrors)
    {
      if options.Some? {
        var o := options.value;
        logger := o.logger.GetOr(FALLBACK_LOGGER);
        debug := o.debug.GetOr(false);
        schemaValidationFunction := o.schemaValidationFunction.GetOr(validateSchema);
        SetSchema(o.schema);
      }
    }

    method GetSchema() returns (current: Option<Schema>)
      ensures current == schema
    {
      current := schema;
    }

    /** Installs `schema` if `shouldUpdateSchema` accepts it, revalidating a
        present schema; a rejection leaves the registry as it was. */
    method SetSchema(schema: Option<Schema>)
      requires Valid()
      modifies this`schema, this`schemaValidationErrors, this`validatedBy, this`log
      ensures Valid()
      ensures this.schema == (if shouldUpdateSchema(schema) then schema else old(this.schema))
      ensures schemaValidationErrors ==
                (if shouldUpdateSchema(schema) && schema.Some? then schemaValidationFunction(schema.value)
                 else old(schemaValidationErrors))
      ensures validatedBy ==
                (if shouldUpdateSchema(schema) && schema.Some? then schemaValidationFunction else old(validatedBy))
      ensures log == old(log) + SetSchemaLog(logger, debug, schema, shouldUpdateSchema(schema),
                                             schemaValidationErrors)
    {
      var attempt := LogEntry(logger, Info(UPDATE_ATTEMPT_MESSAGE));
      log := log + [attempt];
      LogDebugIfEnabled(SchemaIs(schema));
      ghost var announced := log;
      ghost var outcome: seq<LogEntry> := [];
      if shouldUpdateSchema(schema) {
        this.schema := schema;
        if this.schema.Some? {
          schemaValidationErrors := schemaValidationFunction(this.schema.value);
          validatedBy := schemaValidationFunction;
          if |schemaValidationErrors| > 0 {
            var warning := LogEntry(logger, Warn(VALIDATION_FAILED_MESSAGE));
            log := log + [warning];
            LogSchemaValidationErrors();
            outcome := [warning] + ErrorLog(logger, schemaValidationErrors);
          }
          assert outcome == ValidationLog(logger, schemaValidationErrors);
        }
      } else {
        var rejection := LogEntry(logger, Warn(UPDATE_REJECTED_MESSAGE));
        log := log + [rejection];
        outcome := [rejection];
      }
      ghost var header := [attempt] + DebugIfEnabled(debug, logger, SchemaIs(schema));
      assert log == old(log) + (header + outcome) by {
        assert log == announced + outcome;
        assert announced == old(log) + header;
        AppendIsAssociative(old(log), header, outcome);
      }
    }

    /** The loop of `setSchema` that logs each stored validation error. */
    method LogSchemaValidationErrors()
      modifies this`log
      ensures log == old(log) + ErrorLog(logger, schemaValidationErrors)
    {
      var i := 0;
      while i < |schemaValidationErrors|
        invariant 0 <= i <= |schemaValidationErrors|
        invariant log == old(log) + ErrorLog(logger, schemaValidationErrors[..i])
      {
        log := log + [LogEntry(logger, Error(VALIDATION_ERROR_MESSAGE, schemaValidationErrors[i]))];
        assert schemaValidationErrors[..i + 1][..i] == schemaValidationErrors[..i];
        i := i + 1;
      }
      assert schemaValidationErrors[..i] == schemaValidationErrors;
    }

    /** The stored errors, which are always those of the current schema. */
    method GetSchemaValidationErrors() returns (errors: seq<GraphQLError>)
      requires Valid()
      ensures errors == schemaValidationErrors
      ensures schema.Some? ==> errors == validatedBy(schema.value)
    {
      errors := schemaValidationErrors;
    }

    /** Writes the reply `RequestReply` prescribes for this request and the
        current schema state. */
    method HandleRequest(request: Request, response: ServerResponse)
      modifies this`log, response
      ensures var reply := RequestReply(request.requestMethod, schema, schemaValidationErrors);
              && response.statusCode == reply.statusCode
              && response.headers == ResponseHeaders(old(response.headers), reply.customHeaders)
              && response.body == Some(reply.result)
              && log == old(log) + HandleRequestLog(debug, logger, reply)
    {
      if request.requestMethod != "GET" && request.requestMethod != "POST" {
        SendResponse(response, ErrorResult([GraphQLError(METHOD_NOT_ALLOWED_MESSAGE)]), 405,
                     [(ALLOW, ALLOWED_METHODS)]);
        return;
      }
      if schema.None? || |schemaValidationErrors| > 0 {
        SendInvalidSchemaResponse(request, response);
        return;
      }
      LogDebugIfEnabled(CreateResponse(PLAIN_OBJECT_TEXT));
      SendResponse(response, DataResult(EXAMPLE_RESPONSE_DATA));
    }

    /** Sets the status, then Content-Type, then each custom header in order,
        and ends the response with `executionResult`. */
    method SendResponse(response: ServerResponse, executionResult: ExecutionResult,
                        statusCode: int := 200, customHeaders: seq<Header> := [])
      modifies this`log, response
      ensures response.statusCode == statusCode
      ensures response.headers == ResponseHeaders(old(response.headers), customHeaders)
      ensures response.body == Some(executionResult)
      ensures log == old(log) + SendResponseLog(debug, logger, executionResult, statusCode, customHeaders)
    {
      LogDebugIfEnabled(PreparingResponse(executionResult, statusCode, customHeaders));
      response.statusCode := statusCode;
      response.headers := response.headers[CONTENT_TYPE := JSON_CONTENT_TYPE];
      ghost var base := response.headers;
      ghost var logged := log;
      var i := 0;
      while i < |customHeaders|
        modifies this`log, response`headers
        invariant 0 <= i <= |customHeaders|
        invariant response.headers == ApplyHeaders(base, customHeaders[..i])
        invariant log == logged + HeaderDebugLog(debug, logger, customHeaders[..i])
      {
        var (key, value) := customHeaders[i];
        ghost var done := customHeaders[..i + 1];
        assert done[..i] == customHeaders[..i] && done[i] == (key, value);
        assert HeaderDebugLog(debug, logger, done)
               == HeaderDebugLog(debug, logger, customHeaders[..i]) + DebugIfEnabled(debug, logger, SetCustomHeader(key, value));
        LogDebugIfEnabled(SetCustomHeader(key, value));
        response.headers := response.headers[key := value];
        i := i + 1;
      }
      assert customHeaders[..i] == customHeaders;
      ghost var preparing := DebugIfEnabled(debug, logger, PreparingResponse(executionResult, statusCode, customHeaders));
      AppendIsAssociative(old(log), preparing, HeaderDebugLog(debug, logger, customHeaders));
      response.body := Some(executionResult);
    }

    method LogDebugIfEnabled(event: DebugEvent)
      modifies this`log
      ensures log == old(log) + DebugIfEnabled(debug, logger, event)
    {
      if debug {
        log := log + [LogEntry(logger, Debug(event))];
      }
    }

    /** Refuses a request because the schema is absent or invalid. */
    method SendInvalidSchemaResponse(request: Request, response: ServerResponse)
      modifies this`log, response
      ensures response.statusCode == 500
      ensures response.headers == ResponseHeaders(old(response.headers), [])
      ensures response.body == Some(ErrorResult([GraphQLError(INVALID_SCHEMA_MESSAGE)]))
      ensures log == old(log) + SendResponseLog(debug, logger, ErrorResult([GraphQLError(INVALID_SCHEMA_MESSAGE)]), 500, [])
    {
      SendResponse(response, ErrorResult([GraphQLError(INVALID_SCHEMA_MESSAGE)]), 500);
    }
  }
}
