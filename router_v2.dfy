/**
 * `RouterV2`: descriptor and capability lookups over the second-generation
 * registry, and the guard sequence of `execute`, which checks the model id,
 * finds the user, calls the `ai-router` edge function and checks its reply.
 * The session lookup and the edge-function call are external; their results
 * are parameters, and the calls made are returned as a trace.
 */
module RouterV2 {
  import opened JsValues
  import opened AdapterTypes
  import opened ModelRegistryV2

  /** `getModelDescriptor(modelId)`: the registry entry, or `ModelNotFoundError` for an unknown id. */
  function GetDescriptor(table: Table, modelId: string): (r: Result<ModelDescriptor>)
    ensures r.Throw? <==> !Listed(table, modelId)
    ensures r.Throw? ==> r.message == ModelNotFoundMessage(modelId)
    ensures r.Ok? ==> exists i :: 0 <= i < |table| && table[i] == (modelId, r.value)
  {
    IsValidModelIdIff(table, modelId);
    if !IsValidModelId(table, modelId) then Throw(ModelNotFoundMessage(modelId))
    else Ok(GetModelDescriptor(table, modelId))
  }

  /** `getDefaultConfig(modelId)`: the descriptor's `defaultConfig`. */
  function GetDefaultConfig(table: Table, modelId: string): (r: Result<Defaults>)
    ensures r.Throw? <==> !Listed(table, modelId)
    ensures r.Throw? ==> r.message == ModelNotFoundMessage(modelId)
    ensures r.Ok? ==> exists i :: 0 <= i < |table| && table[i].0 == modelId && table[i].1.defaultConfig == r.value
  {
    var descriptor :- GetDescriptor(table, modelId);
    Ok(descriptor.defaultConfig)
  }

  /** `hasCapability(modelId, capability)`: the descriptor's flag. */
  function HasCapability(table: Table, modelId: string, capability: Capability): (r: Result<bool>)
    ensures r.Throw? <==> !Listed(table, modelId)
    ensures r.Throw? ==> r.message == ModelNotFoundMessage(modelId)
    ensures r.Ok? ==> exists i :: 0 <= i < |table| && table[i].0 == modelId &&
                                  r.value == Flag(table[i].1.capabilities, capability)
  {
    var descriptor :- GetDescriptor(table, modelId);
    Ok(Flag(descriptor.capabilities, capability))
  }

  /** With distinct ids the lookups answer from the id's own entry. */
  lemma LookupsOfEntry(table: Table, i: nat, capability: Capability)
    requires DistinctIds(table) && i < |table|
    ensures GetDescriptor(table, table[i].0) == Ok(table[i].1)
    ensures GetDefaultConfig(table, table[i].0) == Ok(table[i].1.defaultConfig)
    ensures HasCapability(table, table[i].0, capability) == Ok(Flag(table[i].1.capabilities, capability))
  {
    DescriptorOfEntry(table, i);
  }

  /** An external call `execute` makes. */
  datatype Call = SessionLookup | Invoke(modelId: string, request: Json, userId: string)

  /** What `supabase.functions.invoke` resolves to. */
  datatype Reply = Reply(data: Json, error: Json)

  const AuthRequiredMessage := "Authentication required. Please sign in to execute AI models."

  function RouterErrorMessage(error: Json): string {
    "Router error: " + ToText(Or(Get(error, "message"), Str("Unknown error")))
  }

  function ApiErrorMessage(data: Json): string {
    ToText(Or(Get(data, "message"), Str("API execution error")))
  }

  /** A `userId` argument that is present and not "" (the falsy string). */
  predicate Supplied(userId: Option<string>) {
    userId.Some? && userId.value != ""
  }

  /**
   * The outcome of `execute` and the external calls it makes, given the
   * session's user id (`None` when there is no session) and the edge
   * function's reply.
   */
  function Outcome(table: Table, modelId: string, input: Json, userId: Option<string>,
                   session: Option<string>, reply: Reply): (o: (Result<Json>, seq<Call>))
    ensures !Listed(table, modelId) ==> o == (Throw(ModelNotFoundMessage(modelId)), [])
    ensures Listed(table, modelId) && Supplied(userId) ==> o.1 == [Invoke(modelId, input, userId.value)]
    ensures Listed(table, modelId) && !Supplied(userId) && session.None? ==> o == (Throw(AuthRequiredMessage), [SessionLookup])
    ensures Listed(table, modelId) && !Supplied(userId) && session.Some? ==>
              o.1 == [SessionLookup, Invoke(modelId, input, session.value)]
    ensures o.0.Ok? <==> Listed(table, modelId) && (Supplied(userId) || session.Some?) &&
                         !Truthy(reply.error) && !Truthy(Get(reply.data, "error"))
    ensures o.0.Ok? ==> o.0.value == reply.data
  {
    IsValidModelIdIff(table, modelId);
    AfterGuard(IsValidModelId(table, modelId), modelId, input, userId, session, reply)
  }

  /** `execute` once its model-id guard has answered `valid`. */
  function AfterGuard(valid: bool, modelId: string, input: Json, userId: Option<string>,
                      session: Option<string>, reply: Reply): (Result<Json>, seq<Call>)
  {
    if !valid then (Throw(ModelNotFoundMessage(modelId)), [])
    else if !Supplied(userId) && session.None? then (Throw(AuthRequiredMessage), [SessionLookup])
    else
      var lookups := if Supplied(userId) then [] else [SessionLookup];
      var user := if Supplied(userId) then userId.value else session.value;
      var calls := lookups + [Invoke(modelId, input, user)];
      if Truthy(reply.error) then (Throw(RouterErrorMessage(reply.error)), calls)
      else if Truthy(Get(reply.data, "error")) then (Throw(ApiErrorMessage(reply.data)), calls)
      else (Ok(reply.data), calls)
  }

  /** `execute` behind the guard as written, `modelId in modelRegistry`. */
  function OutcomeAsWritten(table: Table, modelId: string, input: Json, userId: Option<string>,
                            session: Option<string>, reply: Reply): (Result<Json>, seq<Call>)
  {
    AfterGuard(IsValidModelIdAsWritten(table, modelId), modelId, input, userId, session, reply)
  }

  /**
   * Behind the guard as written, "toString" passes for any table without
   * such a model, and `execute` goes on to invoke the edge function with it;
   * behind the own-key guard it fails before any call.
   */
  lemma AsWrittenExecuteInvokesToString(table: Table, input: Json, userId: Option<string>,
                                        session: Option<string>, reply: Reply)
    requires !Listed(table, "toString") && Supplied(userId)
    ensures OutcomeAsWritten(table, "toString", input, userId, session, reply).1 == [Invoke("toString", input, userId.value)]
    ensures Outcome(table, "toString", input, userId, session, reply) == (Throw(ModelNotFoundMessage("toString")), [])
  {
    AsWrittenAcceptsToString(table);
  }

  /** `execute({ modelId, input, userId })` */
  method Execute(table: Table, modelId: string, input: Json, userId: Option<string>,
                 session: Option<string>, reply: Reply) returns (r: Result<Json>, calls: seq<Call>)
    ensures (r, calls) == Outcome(table, modelId, input, userId, session, reply)
  {
    calls := [];
    if !IsValidModelId(table, modelId) {
      return Throw(ModelNotFoundMessage(modelId)), calls;
    }
    var currentUserId := userId;
    if !Supplied(currentUserId) {
      calls := [SessionLookup];
      if session.None? {
        return Throw(AuthRequiredMessage), calls;
      }
      currentUserId := session;
    }
    calls := calls + [Invoke(modelId, input, currentUserId.value)];
    if Truthy(reply.error) {
      return Throw(RouterErrorMessage(reply.error)), calls;
    }
    if Truthy(Get(reply.data, "error")) {
      return Throw(ApiErrorMessage(reply.data)), calls;
    }
    return Ok(reply.data), calls;
  }
}
