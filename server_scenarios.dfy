/** Clients of the server model that replay the situations exercised by
    tests/server/GraphQLServer.test.ts and
    tests/server/GraphQLServer.handleRequest.integration.test.ts. The graphql
    library's `validateSchema` is a parameter throughout. */
module ServerScenarios {
  import opened Wrappers
  import opened Server

  function OnlySchema(schema: Schema): GraphQLServerOptions {
    GraphQLServerOptions(None, None, Some(schema), None)
  }

  /** Installing the same candidate twice leaves the registry as installing
      it once did. */
  method SetSchemaTwice(server: GraphQLServer, schema: Option<Schema>)
    returns (schemaOnce: Option<Schema>, errorsOnce: seq<GraphQLError>)
    requires server.Valid()
    modifies server`schema, server`schemaValidationErrors, server`validatedBy, server`log
    ensures server.Valid()
    ensures schemaOnce == (if server.shouldUpdateSchema(schema) then schema else old(server.schema))
    ensures errorsOnce ==
              (if server.shouldUpdateSchema(schema) && schema.Some?
               then server.schemaValidationFunction(schema.value)
               else old(server.schemaValidationErrors))
    ensures server.schema == schemaOnce && server.schemaValidationErrors == errorsOnce
  {
    server.SetSchema(schema);
    schemaOnce := server.schema;
    errorsOnce := server.schemaValidationErrors;
    server.SetSchema(schema);
  }

  /** A later `setSchema` replaces the schema given at construction, and the
      errors reported are those of the new schema. */
  method UpdateReplacesSchema(validateSchema: Schema -> seq<GraphQLError>, initial: Schema, updated: Schema)
    returns (current: Option<Schema>, errors: seq<GraphQLError>)
    ensures current == Some(updated)
    ensures errors == validateSchema(updated)
  {
    var server := new GraphQLServer(Some(OnlySchema(initial)), validateSchema);
    server.SetSchema(Some(updated));
    current := server.GetSchema();
    errors := server.GetSchemaValidationErrors();
  }

  /** Under the default decision an absent schema is rejected: the schema
      given at construction and its errors stay, and a warning is logged. */
  method AbsentSchemaIsRejected(validateSchema: Schema -> seq<GraphQLError>, initial: Schema)
    returns (current: Option<Schema>, errors: seq<GraphQLError>, last: LogEntry)
    ensures current == Some(initial)
    ensures errors == validateSchema(initial)
    ensures last == LogEntry(FALLBACK_LOGGER, Warn(UPDATE_REJECTED_MESSAGE))
  {
    var server := new GraphQLServer(Some(OnlySchema(initial)), validateSchema);
    server.SetSchema(None);
    current := server.GetSchema();
    errors := server.GetSchemaValidationErrors();
    last := server.log[|server.log| - 1];
  }

  /** With a decision that accepts everything, an absent schema clears the
      installed one; the errors of the cleared schema are kept. */
  method AlwaysUpdateClearsSchema(validateSchema: Schema -> seq<GraphQLError>, initial: Schema)
    returns (current: Option<Schema>, errors: seq<GraphQLError>)
    ensures current == None
    ensures errors == validateSchema(initial)
  {
    var server := new GraphQLServer(Some(OnlySchema(initial)), validateSchema, _ => true);
    server.SetSchema(None);
    current := server.GetSchema();
    errors := server.GetSchemaValidationErrors();
  }

  /** A PUT request is refused with 405 and `Allow: GET, POST` on a fresh
      response, whatever schema the server holds. */
  method PutIsRefused(server: GraphQLServer) returns (response: ServerResponse)
    modifies server`log
    ensures response.statusCode == 405
    ensures response.body == Some(ErrorResult([GraphQLError(METHOD_NOT_ALLOWED_MESSAGE)]))
    ensures response.headers == map[CONTENT_TYPE := JSON_CONTENT_TYPE, ALLOW := ALLOWED_METHODS]
  {
    response := new ServerResponse();
    server.HandleRequest(Request("PUT", "/graphql"), response);
    MethodNotAllowedReply("PUT", server.schema, server.schemaValidationErrors, map[]);
  }
}
