/**
 * The second-generation model registry: one table from model id to
 * descriptor (provider, capability flags, default config and the id the
 * provider's API uses), and the queries over it.
 */
module ModelRegistryV2 {
  import opened JsValues
  import opened Grouping

  datatype Capabilities = Capabilities(text: bool, images: bool, webSearch: bool)

  /** A key of `ModelCapabilities`. */
  datatype Capability = Text | Images | WebSearch

  function Flag(c: Capabilities, capability: Capability): bool {
    match capability
    case Text => c.text
    case Images => c.images
    case WebSearch => c.webSearch
  }

  /** A descriptor's `defaultConfig`; `enableWebSearch` is absent from most of them. */
  datatype Defaults = Defaults(temperature: real, maxTokens: int, systemPrompt: string, enableWebSearch: Option<bool>)

  datatype ModelDescriptor = ModelDescriptor(
    provider: string, capabilities: Capabilities, defaultConfig: Defaults, apiModelId: Option<string>)

  /** The registry object's entries, in declaration order. */
  type Table = seq<(string, ModelDescriptor)>

  /** `modelRegistry` */
  const ModelRegistry: Table :=
    [
      ("gpt-4o", ModelDescriptor("OpenAI", Capabilities(true, true, false),
        Defaults(0.7, 512, "You are a helpful assistant.", Some(false)), None)),
      ("gpt-4.1", ModelDescriptor("OpenAI", Capabilities(true, true, true),
        Defaults(0.7, 512, "You are a helpful assistant.", Some(false)), None)),
      ("gpt-4o-mini", ModelDescriptor("OpenAI", Capabilities(true, true, false),
        Defaults(0.7, 512, "You are a helpful assistant.", Some(false)), None)),
      ("gpt-4.5-preview", ModelDescriptor("OpenAI", Capabilities(true, true, false),
        Defaults(0.7, 512, "You are a helpful assistant.", Some(false)), None)),
      ("gpt-4.1-mini-2025-04-14", ModelDescriptor("OpenAI", Capabilities(true, true, true),
        Defaults(0.7, 512, "You are a helpful assistant.", Some(false)), None)),
      ("gpt-4o-2024-08-06", ModelDescriptor("OpenAI", Capabilities(true, true, false),
        Defaults(0.7, 512, "You are a helpful assistant.", Some(false)), None)),
      ("gpt-4.1-2025-04-14", ModelDescriptor("OpenAI", Capabilities(true, true, true),
        Defaults(0.7, 512, "You are a helpful assistant.", Some(false)), None)),
      ("gpt-5-2025-08-07", ModelDescriptor("OpenAI", Capabilities(true, true, false),
        Defaults(0.7, 512, "You are a helpful assistant.", Some(false)), None)),
      ("gpt-5-mini-2025-08-07", ModelDescriptor("OpenAI", Capabilities(true, true, false),
        Defaults(0.7, 512, "You are a helpful assistant.", Some(false)), None)),
      ("o3", ModelDescriptor("OpenAI", Capabilities(true, false, false),
        Defaults(0.7, 512, "You are a helpful assistant.", Some(false)), None)),
      ("o3-mini", ModelDescriptor("OpenAI", Capabilities(true, false, false),
        Defaults(0.7, 512, "You are a helpful assistant.", Some(false)), None)),
      ("o4-mini", ModelDescriptor("OpenAI", Capabilities(true, false, false),
        Defaults(0.7, 512, "You are a helpful assistant.", Some(false)), None)),
      ("claude-3-7-sonnet-20250219", ModelDescriptor("Anthropic", Capabilities(true, false, false),
        Defaults(0.7, 4096, "You are Claude, a helpful AI assistant.", None), None)),
      ("claude-opus-4-20250514", ModelDescriptor("Anthropic", Capabilities(true, false, false),
        Defaults(0.7, 4096, "You are Claude, a helpful AI assistant.", None), None)),
      ("claude-opus-4-1-20250805", ModelDescriptor("Anthropic", Capabilities(true, false, false),
        Defaults(0.7, 4096, "You are Claude, a helpful AI assistant.", None), None)),
      ("claude-sonnet-4-20250514", ModelDescriptor("Anthropic", Capabilities(true, false, false),
        Defaults(0.7, 4096, "You are Claude, a helpful AI assistant.", None), None)),
      ("claude-3.7-sonnet", ModelDescriptor("Anthropic", Capabilities(true, false, false),
        Defaults(0.7, 4096, "You are Claude, a helpful AI assistant.", None), Some("claude-3-7-sonnet-20250219"))),
      ("gemini-2.5-flash-preview-04-17", ModelDescriptor("Google Gemini", Capabilities(true, true, false),
        Defaults(0.7, 512, "You are Gemini, a helpful AI assistant.", None), None)),
      ("gemini-2.5-pro-preview-03-25", ModelDescriptor("Google Gemini", Capabilities(true, true, false),
        Defaults(0.7, 512, "You are Gemini, a helpful AI assistant.", None), None)),
      ("gemini-2.0-flash", ModelDescriptor("Google Gemini", Capabilities(true, true, false),
        Defaults(0.7, 512, "You are Gemini, a helpful AI assistant.", None), None)),
      ("gemini-2.0-flash-lite", ModelDescriptor("Google Gemini", Capabilities(true, true, false),
        Defaults(0.7, 512, "You are Gemini, a helpful AI assistant.", None), None)),
      ("gemini-1.5-flash", ModelDescriptor("Google Gemini", Capabilities(true, true, false),
        Defaults(0.7, 512, "You are Gemini, a helpful AI assistant.", None), None)),
      ("gemini-1.5-flash-8b", ModelDescriptor("Google Gemini", Capabilities(true, true, false),
        Defaults(0.7, 512, "You are Gemini, a helpful AI assistant.", None), None)),
      ("gemini-1.5-pro", ModelDescriptor("Google Gemini", Capabilities(true, true, false),
        Defaults(0.7, 512, "You are Gemini, a helpful AI assistant.", None), None)),
      ("gemini-2.5-pro", ModelDescriptor("Google Gemini", Capabilities(true, true, false),
        Defaults(0.7, 512, "You are Gemini, a helpful AI assistant.", None), None)),
      ("mistral-large", ModelDescriptor("Mistral", Capabilities(true, false, false),
        Defaults(0.7, 512, "You are a helpful AI assistant.", None), None)),
      ("mistral-medium", ModelDescriptor("Mistral", Capabilities(true, false, false),
        Defaults(0.7, 512, "You are a helpful AI assistant.", None), None)),
      ("mistral-small", ModelDescriptor("Mistral", Capabilities(true, false, false),
        Defaults(0.7, 512, "You are a helpful AI assistant.", None), None)),
      ("command-r", ModelDescriptor("Cohere", Capabilities(true, false, false),
        Defaults(0.7, 512, "You are a helpful AI assistant.", None), None)),
      ("command-r-plus", ModelDescriptor("Cohere", Capabilities(true, false, false),
        Defaults(0.7, 512, "You are a helpful AI assistant.", None), None)),
      ("command-light", ModelDescriptor("Cohere", Capabilities(true, false, false),
        Defaults(0.7, 512, "You are a helpful AI assistant.", None), None)),
      ("grok-3-beta", ModelDescriptor("XAI", Capabilities(true, false, false),
        Defaults(0.7, 512, "You are a helpful assistant.", None), Some("grok-3-latest"))),
      ("grok-3-mini-beta", ModelDescriptor("XAI", Capabilities(true, false, false),
        Defaults(0.7, 512, "You are a helpful assistant.", None), Some("grok-3-mini-latest"))),
      ("grok-4", ModelDescriptor("XAI", Capabilities(true, false, false),
        Defaults(0.7, 512, "You are a helpful assistant.", None), Some("grok-4-latest"))),
      ("grok-4-0709", ModelDescriptor("XAI", Capabilities(true, false, false),
        Defaults(0.7, 512, "You are a helpful assistant.", None), None)),
      ("grok-4-latest", ModelDescriptor("XAI", Capabilities(true, false, false),
        Defaults(0.7, 512, "You are a helpful assistant.", None), None)),
      ("Grok-3-beta", ModelDescriptor("XAI", Capabilities(true, false, false),
        Defaults(0.7, 512, "You are a helpful assistant.", None), Some("grok-3-latest"))),
      ("Grok-3-mini-beta", ModelDescriptor("XAI", Capabilities(true, false, false),
        Defaults(0.7, 512, "You are a helpful assistant.", None), Some("grok-3-mini-latest"))),
      ("deepseek-r1", ModelDescriptor("DeepSeek", Capabilities(true, false, false),
        Defaults(0.7, 512, "You are a helpful assistant.", None), None)),
      ("deepseek-v3-0324", ModelDescriptor("DeepSeek", Capabilities(true, false, false),
        Defaults(0.7, 512, "You are a helpful assistant.", None), None)),
      ("DeepSeek-R1", ModelDescriptor("DeepSeek", Capabilities(true, false, false),
        Defaults(0.7, 512, "You are a helpful assistant.", None), Some("deepseek-r1"))),
      ("DeepSeek-V3-0324", ModelDescriptor("DeepSeek", Capabilities(true, false, false),
        Defaults(0.7, 512, "You are a helpful assistant.", None), Some("deepseek-v3-0324"))),
      ("sonar-pro", ModelDescriptor("Perplexity", Capabilities(true, false, true),
        Defaults(0.7, 8000, "You are a helpful assistant.", Some(true)), None)),
      ("sonar-deep-research", ModelDescriptor("Perplexity", Capabilities(true, false, true),
        Defaults(0.7, 8000, "You are a helpful assistant.", Some(true)), None)),
      ("llama-4-maverick-instruct", ModelDescriptor("Together AI", Capabilities(true, false, false),
        Defaults(0.2, 2048, "You are a helpful AI assistant.", None), None)),
      ("llama-4-scout-instruct", ModelDescriptor("Together AI", Capabilities(true, false, false),
        Defaults(0.2, 2048, "You are a helpful AI assistant.", None), None)),
      ("mock-model", ModelDescriptor("Mock", Capabilities(true, false, false),
        Defaults(0.7, 512, "You are a helpful assistant.", None), None))
    ]

  /** `modelRegistry[modelId]` over the own entries: the first entry with that id. */
  function Descriptor(table: Table, modelId: string): Option<ModelDescriptor> {
    if table == [] then None
    else if table[0].0 == modelId then Some(table[0].1)
    else Descriptor(table[1..], modelId)
  }

  ghost predicate Listed(table: Table, modelId: string) {
    exists i :: 0 <= i < |table| && table[i].0 == modelId
  }

  /** A lookup finds an id exactly when the table lists it, and then yields its first entry. */
  lemma {:induction false} DescriptorFirst(table: Table, modelId: string)
    ensures Descriptor(table, modelId).Some? <==> Listed(table, modelId)
    ensures Descriptor(table, modelId).Some? ==>
      exists i :: 0 <= i < |table| && table[i] == (modelId, Descriptor(table, modelId).value) &&
                  forall j :: 0 <= j < i ==> table[j].0 != modelId
    decreases |table|
  {
    if table != [] && table[0].0 != modelId {
      var rest := table[1..];
      DescriptorFirst(rest, modelId);
      if Listed(table, modelId) {
        var i :| 0 <= i < |table| && table[i].0 == modelId;
        assert rest[i - 1].0 == modelId;
        var i' :| 0 <= i' < |rest| && rest[i'] == (modelId, Descriptor(table, modelId).value) &&
                  forall j :: 0 <= j < i' ==> rest[j].0 != modelId;
        assert table[i' + 1] == rest[i'];
        assert forall j :: 0 <= j < i' + 1 ==> table[j].0 != modelId by {
          forall j | 0 <= j < i' + 1 ensures table[j].0 != modelId {
            if j > 0 { assert table[j] == rest[j - 1]; }
          }
        }
      }
      if Listed(rest, modelId) {
        var i :| 0 <= i < |rest| && rest[i].0 == modelId;
        assert table[i + 1].0 == modelId;
      }
    } else if table != [] {
      assert table[0] == (modelId, Descriptor(table, modelId).value);
    }
  }

  /** `isValidModelId(modelId)` as intended: the id is one of the registry's own keys. */
  function IsValidModelId(table: Table, modelId: string): (b: bool) {
    Descriptor(table, modelId).Some?
  }

  lemma IsValidModelIdIff(table: Table, modelId: string)
    ensures IsValidModelId(table, modelId) <==> Listed(table, modelId)
  {
    DescriptorFirst(table, modelId);
  }

  /** The names `Object.prototype` gives every object literal. */
  const ObjectPrototypeNames: set<string> :=
    {"constructor", "hasOwnProperty", "isPrototypeOf", "propertyIsEnumerable", "toLocaleString", "toString",
     "valueOf", "__proto__", "__defineGetter__", "__defineSetter__", "__lookupGetter__", "__lookupSetter__"}

  /**
   * `modelId in modelRegistry` as written: the `in` operator also sees the
   * names the registry object inherits from `Object.prototype`.
   */
  function IsValidModelIdAsWritten(table: Table, modelId: string): bool {
    modelId in ObjectPrototypeNames || IsValidModelId(table, modelId)
  }

  /**
   * The check as written accepts "toString" for any table that has no such
   * model, although no descriptor exists for it; the own-key check rejects it.
   */
  lemma AsWrittenAcceptsToString(table: Table)
    requires !Listed(table, "toString")
    ensures IsValidModelIdAsWritten(table, "toString")
    ensures !IsValidModelId(table, "toString") && Descriptor(table, "toString").None?
  {
    IsValidModelIdIff(table, "toString");
  }

  /** `getModelDescriptor(modelId)` for an id of type `ModelId`: its table entry. */
  function GetModelDescriptor(table: Table, modelId: string): (d: ModelDescriptor)
    requires IsValidModelId(table, modelId)
    ensures exists i :: 0 <= i < |table| && table[i] == (modelId, d)
  {
    DescriptorFirst(table, modelId);
    Descriptor(table, modelId).value
  }

  ghost predicate DistinctIds(table: Table) {
    forall i, j :: 0 <= i < j < |table| ==> table[i].0 != table[j].0
  }

  /** With distinct ids every entry is the one its id finds. */
  lemma DescriptorOfEntry(table: Table, i: nat)
    requires DistinctIds(table) && i < |table|
    ensures Descriptor(table, table[i].0) == Some(table[i].1)
  {
    DescriptorFirst(table, table[i].0);
  }

  /** The (provider, model id) pairs the grouping pass visits. */
  function ProviderIds(table: Table): (items: seq<(string, string)>)
    ensures |items| == |table|
    ensures forall i :: 0 <= i < |table| ==> items[i] == (table[i].1.provider, table[i].0)
  {
    seq(|table|, i requires 0 <= i < |table| => (table[i].1.provider, table[i].0))
  }

  /** `getModelsByProvider()`: one group per provider, which lists that provider's ids. */
  method GetModelsByProvider(table: Table) returns (providers: Groups<string, string>)
    ensures providers == GroupBy(ProviderIds(table))
    ensures GroupsOf(providers, ProviderIds(table))
  {
    providers := GroupInPlace(ProviderIds(table));
  }

  ghost predicate ListedUnder(table: Table, provider: string, modelId: string) {
    exists i :: 0 <= i < |table| && table[i].0 == modelId && table[i].1.provider == provider
  }

  lemma ListedUnderLast(table: Table, provider: string, modelId: string)
    requires table != []
    ensures var init := table[..|table| - 1]; var last := table[|table| - 1];
      ListedUnder(table, provider, modelId) <==>
        ListedUnder(init, provider, modelId) || (last.0 == modelId && last.1.provider == provider)
  {
    var init := table[..|table| - 1];
    if ListedUnder(init, provider, modelId) {
      var i :| 0 <= i < |init| && init[i].0 == modelId && init[i].1.provider == provider;
      assert table[i] == init[i];
    }
    if ListedUnder(table, provider, modelId) {
      var i :| 0 <= i < |table| && table[i].0 == modelId && table[i].1.provider == provider;
      if i < |init| { assert init[i] == table[i]; }
    }
  }

  lemma LastIdNotEarlier(table: Table, provider: string)
    requires table != [] && DistinctIds(table)
    ensures !ListedUnder(table[..|table| - 1], provider, table[|table| - 1].0)
  {
  }

  /**
   * With distinct ids a provider's list holds each id once when the id's
   * descriptor names that provider, and not at all otherwise.
   */
  lemma {:induction false} ListedOnce(table: Table, provider: string, modelId: string)
    requires DistinctIds(table)
    ensures multiset(Values(ProviderIds(table), provider))[modelId] == if ListedUnder(table, provider, modelId) then 1 else 0
    decreases |table|
  {
    if table != [] {
      var init := table[..|table| - 1];
      var last := table[|table| - 1];
      assert DistinctIds(init);
      assert ProviderIds(table)[..|table| - 1] == ProviderIds(init);
      assert Values(ProviderIds(table), provider) ==
             Values(ProviderIds(init), provider) + (if last.1.provider == provider then [last.0] else []);
      ListedOnce(init, provider, modelId);
      ListedUnderLast(table, provider, modelId);
      if last.0 == modelId {
        LastIdNotEarlier(table, provider);
      }
    }
  }

  /** Every provider in the grouping has at least one model. */
  lemma NoEmptyProvider(table: Table)
    ensures forall i :: 0 <= i < |GroupBy(ProviderIds(table))| ==> GroupBy(ProviderIds(table))[i].1 != []
  {
    var items := ProviderIds(table);
    var groups := GroupBy(items);
    GroupByGroups(items);
    forall i | 0 <= i < |groups| ensures groups[i].1 != [] {
      assert HasGroup(groups, groups[i].0);
      ValuesNonEmpty(items, groups[i].0);
    }
  }

  /** `getAllProviders()`: each descriptor's provider, first occurrences only, in table order. */
  function GetAllProviders(table: Table): seq<string> {
    Unique(seq(|table|, i requires 0 <= i < |table| => table[i].1.provider))
  }

  /**
   * The providers of `getAllProviders()` are distinct and are exactly the
   * providers of the table, and they are the keys of `getModelsByProvider()`
   * in the same order.
   */
  lemma AllProvidersAreGroupKeys(table: Table)
    ensures var all := GetAllProviders(table);
      (forall i, j :: 0 <= i < j < |all| ==> all[i] != all[j]) &&
      (forall p :: p in all <==> exists i :: 0 <= i < |table| && table[i].1.provider == p) &&
      ItemKeys(GroupBy(ProviderIds(table))) == all
  {
    GroupKeysFirstOccurrence(ProviderIds(table));
    assert ItemKeys(ProviderIds(table)) == seq(|table|, i requires 0 <= i < |table| => table[i].1.provider);
  }
}
