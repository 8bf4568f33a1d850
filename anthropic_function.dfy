/**
 * The `anthropic` edge function: it checks that an API key is configured,
 * translates the requested model name to one Anthropic accepts, drops the
 * messages with blank content, rewrites `system` messages as `assistant`
 * messages and fills in the token and temperature defaults before it
 * forwards the request. The environment, the provider's `fetch` reply and
 * the request's JSON body are parameters.
 */
module AnthropicFunction {
  import opened JsValues
  import opened AdapterTypes
  import opened AiRouterPayloads
  import AiRouter

  /** The two model names the provider accepts. */
  const ValidModels: seq<string> := ["claude-3-opus-20240229", "claude-3-sonnet-20240229"]

  /** The names of this application mapped to the provider's names. */
  const ModelNameMapping: seq<(string, string)> := [
    ("claude-3-7-opus-20250224", "claude-3-opus-20240229"),
    ("claude-3-7-sonnet-20250224", "claude-3-sonnet-20240229"),
    ("claude-3-5-sonnet-20250119", "claude-3-sonnet-20240229"),
    ("claude-3.7-sonnet", "claude-3-sonnet-20240229"),
    ("claude-3.7-sonnet-20250219", "claude-3-sonnet-20240229")
  ]

  /** The first binding of `key` in a table of string pairs. */
  function MapLookup(table: seq<(string, string)>, key: string): (r: Option<string>)
    ensures r.Some? ==> (key, r.value) in table
    ensures r.None? ==> forall i :: 0 <= i < |table| ==> table[i].0 != key
  {
    if table == [] then None
    else if table[0].0 == key then Some(table[0].1)
    else MapLookup(table[1..], key)
  }

  /** `modelNameMapping[model] || model`: a known name is translated, anything else is kept. */
  function MappedName(model: Json): Json {
    if model.Str? && MapLookup(ModelNameMapping, model.s).Some? then Str(MapLookup(ModelNameMapping, model.s).value)
    else model
  }

  /** `validModels.includes(name)` */
  predicate IsValidModel(name: Json) {
    name.Str? && name.s in ValidModels
  }

  /** Every name of the mapping is translated to a valid model. */
  lemma MappingTargetsValid(model: Json)
    requires model.Str? && MapLookup(ModelNameMapping, model.s).Some?
    ensures IsValidModel(MappedName(model))
  {
    var v := MapLookup(ModelNameMapping, model.s).value;
    assert (model.s, v) in ModelNameMapping;
  }

  /** The valid names are not keys of the mapping, so they pass through unchanged. */
  lemma ValidNamesPassThrough(name: string)
    requires name in ValidModels
    ensures MappedName(Str(name)) == Str(name)
  {
    assert forall i :: 0 <= i < |ModelNameMapping| ==> ModelNameMapping[i].0 != name;
  }

  /** `xs.join(sep)` */
  function Join(xs: seq<string>, sep: string): string {
    if xs == [] then ""
    else if |xs| == 1 then xs[0]
    else xs[0] + sep + Join(xs[1..], sep)
  }

  const MissingKeyMessage := "Anthropic API key not configured"

  const NoMessagesMessage := "At least one message with non-empty content is required"

  function InvalidModelMessage(model: Json): string {
    "Invalid model name: " + ToText(model) + ". Available models are: " + Join(ValidModels, ", ")
  }

  /** `!anthropicKey` fails for a missing variable and for the empty string. */
  predicate KeyConfigured(apiKey: Option<string>) {
    apiKey.Some? && apiKey.value != ""
  }

  /** `messages.filter`: only an array has it. */
  function MessageList(messages: Json): (r: Result<seq<Json>>)
    ensures r.Ok? <==> messages.Arr?
    ensures r.Ok? ==> r.value == messages.items
  {
    if messages == Undefined then Throw("Cannot read properties of undefined (reading 'filter')")
    else if messages == Null then Throw("Cannot read properties of null (reading 'filter')")
    else if !messages.Arr? then Throw("messages.filter is not a function")
    else Ok(messages.items)
  }

  /**
   * `msg.content && msg.content.trim() !== ''`: a nullish message has no
   * content to read, falsy content drops the message, truthy content that is
   * not a string has no `trim`.
   */
  function Keep(msg: Json): (r: Result<bool>)
    ensures r.Throw? <==> IsNullish(msg) || (Truthy(Get(msg, "content")) && !Get(msg, "content").Str?)
    ensures r == Ok(true) <==> !IsNullish(msg) && Get(msg, "content").Str? && Trim(Get(msg, "content").s) != ""
  {
    var content :- Member(msg, "content");
    if !Truthy(content) then Ok(false)
    else if !content.Str? then Throw("msg.content.trim is not a function")
    else Ok(Trim(content.s) != "")
  }

  /** Content made only of non-ASCII whitespace (no-break space, byte-order mark, line separator) is dropped. */
  lemma UnicodeBlankDropped(role: Json)
    ensures Keep(Obj([("role", role), ("content", Str("\U{00A0}\U{FEFF}\U{2028}"))])) == Ok(false)
  {
    var blank := "\U{00A0}\U{FEFF}\U{2028}";
    var fields := [("role", role), ("content", Str(blank))];
    assert "role" != "content" by { assert "role"[0] != "content"[0]; }
    assert fields[1..] == [("content", Str(blank))];
    assert Lookup(fields[1..], "content") == Str(blank);
    assert Get(Obj(fields), "content") == Str(blank);
    TrimEmptyIff(blank);
    assert Trim(blank) == "";
  }

  /** `a` is `b` with some elements left out, the rest in their order. */
  ghost predicate Subsequence<T>(a: seq<T>, b: seq<T>)
    decreases |b|
  {
    a == [] || (b != [] && ((a[0] == b[0] && Subsequence(a[1..], b[1..])) || Subsequence(a, b[1..])))
  }

  ghost predicate SomeThrows(ms: seq<Json>) {
    exists i :: 0 <= i < |ms| && Keep(ms[i]).Throw?
  }

  /** `messages.filter(...)`: the first throwing test ends the pass. */
  function FilterMessages(ms: seq<Json>): (r: Result<seq<Json>>)
    ensures r.Ok? ==> |r.value| <= |ms|
  {
    if ms == [] then Ok([])
    else
      var keep :- Keep(ms[0]);
      var rest :- FilterMessages(ms[1..]);
      Ok(if keep then [ms[0]] + rest else rest)
  }

  /** The pass throws exactly when the test throws on some message. */
  lemma {:induction false} FilterThrowIff(ms: seq<Json>)
    ensures FilterMessages(ms).Throw? <==> SomeThrows(ms)
  {
    if ms != [] {
      FilterThrowIff(ms[1..]);
      if SomeThrows(ms[1..]) {
        var i :| 0 <= i < |ms| - 1 && Keep(ms[1..][i]).Throw?;
        assert Keep(ms[i + 1]).Throw?;
      }
      if SomeThrows(ms) && Keep(ms[0]).Ok? {
        var i :| 0 <= i < |ms| && Keep(ms[i]).Throw?;
        assert Keep(ms[1..][i - 1]).Throw?;
      }
    }
  }

  /**
   * A pass that completes keeps exactly the messages with non-blank string
   * content, in their order.
   */
  lemma {:induction false} FilterKeeps(ms: seq<Json>)
    requires FilterMessages(ms).Ok?
    ensures Subsequence(FilterMessages(ms).value, ms)
    ensures forall x :: x in FilterMessages(ms).value <==> x in ms && Keep(x) == Ok(true)
  {
    if ms != [] {
      var rest := FilterMessages(ms[1..]).value;
      FilterKeeps(ms[1..]);
      if Keep(ms[0]) == Ok(true) {
        assert ([ms[0]] + rest)[1..] == rest;
      }
      assert forall x :: x in ms <==> x == ms[0] || x in ms[1..];
    }
  }

  /** An outgoing message: `{ role, content }`. */
  datatype OutMessage = OutMessage(role: Json, content: Json)

  /** `msg.role === 'system' ? 'assistant' : msg.role`, with the content kept. */
  function Rewrite(msg: Json): OutMessage {
    var role := Get(msg, "role");
    OutMessage(if role == Str("system") then Str("assistant") else role, Get(msg, "content"))
  }

  /** `validMessages.map(...)`: one outgoing message per message, in order. */
  function RewriteAll(ms: seq<Json>): (out: seq<OutMessage>)
    ensures |out| == |ms|
    ensures forall i :: 0 <= i < |ms| ==> out[i] == Rewrite(ms[i])
  {
    seq(|ms|, i requires 0 <= i < |ms| => Rewrite(ms[i]))
  }

  /** No message is sent with the system role; every other role and every content is kept. */
  lemma RewriteRoles(ms: seq<Json>)
    ensures forall i :: 0 <= i < |ms| ==> RewriteAll(ms)[i].role != Str("system")
    ensures forall i :: 0 <= i < |ms| ==> RewriteAll(ms)[i].content == Get(ms[i], "content")
    ensures forall i :: 0 <= i < |ms| && Get(ms[i], "role") != Str("system") ==> RewriteAll(ms)[i].role == Get(ms[i], "role")
    ensures forall i :: 0 <= i < |ms| && Get(ms[i], "role") == Str("system") ==> RewriteAll(ms)[i].role == Str("assistant")
  {
  }

  /** The body of the request sent to the provider, with the key of its header. */
  datatype AnthropicRequest = AnthropicRequest(
    apiKey: string, model: string, messages: seq<OutMessage>, system: Json, maxTokens: Json, temperature: Json)

  /** From the destructured body to the outgoing request, every check in the order the function makes it. */
  function Prepare(body: Json, apiKey: Option<string>): (r: Result<AnthropicRequest>)
    ensures IsNullish(body) ==> r.Throw?
    ensures !IsNullish(body) && !KeyConfigured(apiKey) ==> r == Throw(MissingKeyMessage)
    ensures !IsNullish(body) && KeyConfigured(apiKey) && !IsValidModel(MappedName(Get(body, "model"))) ==>
            r == Throw(InvalidModelMessage(Get(body, "model")))
    ensures r.Ok? ==> r.value.apiKey == apiKey.value && r.value.model in ValidModels
    ensures r.Ok? ==> Str(r.value.model) == MappedName(Get(body, "model"))
    ensures r.Ok? ==> r.value.system == Get(body, "system")
    ensures r.Ok? ==> FalsyDefault(r.value.maxTokens, Get(body, "max_tokens"), Num(1024.0))
    ensures r.Ok? ==> FalsyDefault(r.value.temperature, Get(body, "temperature"), Num(0.7))
    ensures r.Ok? ==> Get(body, "messages").Arr? && FilterMessages(Get(body, "messages").items).Ok? &&
                      FilterMessages(Get(body, "messages").items).value != [] &&
                      r.value.messages == RewriteAll(FilterMessages(Get(body, "messages").items).value)
  {
    if IsNullish(body) then
      Throw("Cannot destructure property 'model' of the request body as it is " + ToText(body) + ".")
    else if !KeyConfigured(apiKey) then Throw(MissingKeyMessage)
    else
      var model := Get(body, "model");
      var mapped := MappedName(model);
      if !IsValidModel(mapped) then Throw(InvalidModelMessage(model))
      else
        var ms :- MessageList(Get(body, "messages"));
        var valid :- FilterMessages(ms);
        if valid == [] then Throw(NoMessagesMessage)
        else
          Ok(AnthropicRequest(apiKey.value, mapped.s, RewriteAll(valid), Get(body, "system"),
                              Or(Get(body, "max_tokens"), Num(1024.0)), Or(Get(body, "temperature"), Num(0.7))))
  }

  ghost predicate SomeKept(ms: seq<Json>) {
    exists i :: 0 <= i < |ms| && Keep(ms[i]) == Ok(true)
  }

  /** A completed pass leaves some message exactly when some message has non-blank content. */
  lemma FilterNonEmptyIff(ms: seq<Json>)
    requires FilterMessages(ms).Ok?
    ensures FilterMessages(ms).value != [] <==> SomeKept(ms)
  {
    FilterKeeps(ms);
    var valid := FilterMessages(ms).value;
    if valid != [] {
      assert valid[0] in valid;
      var i :| 0 <= i < |ms| && ms[i] == valid[0];
    }
    if SomeKept(ms) {
      var i :| 0 <= i < |ms| && Keep(ms[i]) == Ok(true);
      assert ms[i] in valid;
    }
  }

  /** The request is prepared exactly when every check passes and some message has non-blank content. */
  lemma PrepareOkIff(body: Json, apiKey: Option<string>)
    ensures Prepare(body, apiKey).Ok? <==>
      !IsNullish(body) && KeyConfigured(apiKey) && IsValidModel(MappedName(Get(body, "model"))) &&
      Get(body, "messages").Arr? && !SomeThrows(Get(body, "messages").items) && SomeKept(Get(body, "messages").items)
  {
    var ms := Get(body, "messages");
    if ms.Arr? {
      FilterThrowIff(ms.items);
      if FilterMessages(ms.items).Ok? {
        FilterNonEmptyIff(ms.items);
      }
    }
  }

  /** What the function answers: the preflight, the provider's data, or a 500 with the error's message. */
  datatype Reply = Preflight | Forwarded(data: Json) | Failed(message: string)

  /** The handler, with the request it sends to the provider if it gets that far. */
  function Handle(httpMethod: string, body: Json, apiKey: Option<string>, reply: AiRouter.HttpReply)
    : (o: (Reply, Option<AnthropicRequest>))
    ensures httpMethod == "OPTIONS" ==> o == (Preflight, None)
    ensures httpMethod != "OPTIONS" ==> (o.1.Some? <==> Prepare(body, apiKey).Ok?)
    ensures o.1.Some? ==> o.1.value == Prepare(body, apiKey).value
    ensures httpMethod != "OPTIONS" && Prepare(body, apiKey).Throw? ==> o.0 == Failed(Prepare(body, apiKey).message)
    ensures o.0.Forwarded? <==> httpMethod != "OPTIONS" && Prepare(body, apiKey).Ok? && reply.ok
    ensures o.0.Forwarded? ==> o.0.data == reply.body
    ensures o.1.Some? && !reply.ok ==> o.0 == Failed(AiRouter.ProviderErrorMessage("Anthropic", reply.body))
  {
    if httpMethod == "OPTIONS" then (Preflight, None)
    else match Prepare(body, apiKey)
      case Throw(message) => (Failed(message), None)
      case Ok(request) =>
        if !reply.ok then (Failed(AiRouter.ProviderErrorMessage("Anthropic", reply.body)), Some(request))
        else (Forwarded(reply.body), Some(request))
  }
}
