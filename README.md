# agent-flow-command-center, modelled in Dafny

This project models the logic core of agent-flow-command-center, a web application. Users build flows of AI-model nodes, wire them into a graph and run them against several model providers. The model covers:

- **Flow engine.** `resolveDAG` assigns flow nodes to execution levels by a depth-first walk from the roots (`resolve_dag.dfy`). The simulated `MockRunner` walks those levels and records one output per node (`mock_runner.dfy`). `executeNode` checks a node's model id, adapter and config before it calls the adapter (`execute_node.dfy`). The node and flow records live in `flow_types.dfy`.
- **Adapters.** The `ModelAdapter` interface and its OpenAI, Together, Google, DeepSeek and Anthropic implementations: each builds a request, parses a response and validates a config (`model_adapter.dfy`, `*_adapter.dfy`, `adapter_types.dfy`). The adapter registry and its exact lookup are in `model_adapter.dfy`, the case-insensitive lookup in `flow_node_validation.dfy`, and the config checks against an adapter's defaults in `config_validation.dfy`.
- **Validators.** Registry consistency checks between the provider table and the adapter registry, the compatibility checks, and the node and pre-execution config checks (`model_validation.dfy`, `registry_validation.dfy`, `flow_node_validation.dfy`). The provider table is in `providers.dfy`. The `forEach`-into-`Map` grouping these validators use is in `grouping.dfy`.
- **Registry and router, version 2.** The lookups of the V2 model registry, and the router that returns the descriptor, default config and capabilities of a model or throws when the id is not registered (`model_registry_v2.dfy`, `router_v2.dfy`).
- **Edge functions.** The `ai-router` edge function: its per-provider payloads and response extraction, its API-key lookup and its request handling (`ai_router_payloads.dfy`, `ai_router.dfy`). The `anthropic` edge function (`anthropic_function.dfy`).
- **Log store.** The bounded log history that folds flow outputs into log entries (`log_data.dfy`).
- **JavaScript semantics.** The parts the code relies on (`typeof`, truthiness, `||`, `??`, optional chaining, `trim`, `toLowerCase` on ASCII letters) are written out once in `js_values.dfy`.

Pure code is modelled as functions with lemmas. The code that mutates state is modelled as methods proved equal to specification functions: the `resolveDAG` walk, the runner, the log store and the validators' loops. The log store is a class whose fields its methods update.

## Model

| member | source | states |
|---|---|---|
| AdapterTypes.ChatMessage | src/adapters/TogetherAdapter.ts:16-19 | a `{ role, content }` literal reads back the role and content it was built from |
| AdapterTypes.SystemThenUser | src/adapters/TogetherAdapter.ts:16-19 | the message list has exactly two entries: a system message with the given content, then a user message with the input |
| AdapterTypes.ValidateRanges | src/adapters/GoogleAdapter.ts:37-43 | a `null` config throws on the property read; otherwise the verdict is true iff `typeof config` is "object", the temperature is absent or a number in [0, 1], and `maxTokens` is absent or a positive number |
| OpenAIAdapter.BuildRequest | src/adapters/OpenAIAdapter.ts:7-17 | a nullish config throws; otherwise the body has exactly the keys model, messages, temperature and max_tokens; the model is always "gpt-4o"; the messages are [system, user] with the user content equal to the input and the system content `systemPrompt`, or "You are helpful." when that is falsy; temperature and max_tokens are the config values `??` 0.7 and 512 |
| OpenAIAdapter.ParseResponse | src/adapters/OpenAIAdapter.ts:19-24 | a nullish response throws; the output is the first choice's content, or "" when it is falsy; the usage is `usage`, or `{}` when that is falsy; the result has no `raw` field |
| OpenAIAdapter.ValidateConfig | src/adapters/OpenAIAdapter.ts:26-28 | a nullish config throws; otherwise the verdict is true iff the temperature is a number and `maxTokens > 0` under loose comparison; no range is checked |
| OpenAIAdapter.EmptyConfigRejected | src/adapters/OpenAIAdapter.ts:26-28 | the config `{}` is rejected |
| OpenAIAdapter.TemperatureUnbounded | src/adapters/OpenAIAdapter.ts:26-28 | a temperature of 5 with a positive `maxTokens` is accepted |
| TogetherAdapter.BuildRequest | src/adapters/TogetherAdapter.ts:14-23 | a nullish config throws; otherwise the body has exactly the keys messages, temperature, top_p and max_tokens; the messages are [system, user] with the user content equal to the input and the system content `systemPrompt`, or "You are a helpful AI assistant." when that is falsy; temperature, top_p and max_tokens are the config values `??` 0.2, 0.9 and 2048 |
| TogetherAdapter.ParseResponse | src/adapters/TogetherAdapter.ts:26-46 | it throws iff the response is nullish, or the first choice's content is falsy and `response.error` is truthy, with the message "Together API Error: " + (`error.message`, or 'Unknown error' when that is falsy); otherwise the output is that content, or "" when it is falsy; the usage is `usage`, or `{}` when that is falsy; `raw` is the response |
| TogetherAdapter.ValidateConfig | src/adapters/TogetherAdapter.ts:48-55 | a `null` config throws; otherwise the verdict is true iff the config is an object, the temperature is absent or in [0, 1], `maxTokens` is absent or positive, and `top_p` is absent or in [0, 1] |
| TogetherAdapter.DefaultConfigValid | src/adapters/TogetherAdapter.ts:48-64 | `getDefaultConfig()` passes `validateConfig` |
| TogetherAdapter.DefaultConfigMatchesFallbacks | src/adapters/TogetherAdapter.ts:14-64 | building from the default config gives the same request as building from `{}`: the defaults and the fallbacks agree |
| TogetherAdapter.ZeroTemperatureKept | src/adapters/TogetherAdapter.ts:20 | an explicit temperature of 0 is kept, because `??` replaces only `undefined` and `null` |
| GoogleAdapter.UserTurn | src/adapters/GoogleAdapter.ts:17 | the turn has the role "user" and a single part whose text is the input |
| GoogleAdapter.Instruction | src/adapters/GoogleAdapter.ts:19-21 | `systemInstruction` has a single part holding the given text |
| GoogleAdapter.GenerationConfig | src/adapters/GoogleAdapter.ts:22-25 | `generationConfig` holds the given temperature and maxOutputTokens |
| GoogleAdapter.BuildRequest | src/adapters/GoogleAdapter.ts:13-27 | a nullish config throws; otherwise the body has exactly the keys model, contents, systemInstruction and generationConfig; the model is the adapter's model name; `contents` is one user turn whose single part is the input; the instruction's single part is `systemPrompt`, or "You are a helpful AI assistant." when that is falsy; temperature and maxOutputTokens are the config values `??` 0.7 and 512 |
| GoogleAdapter.ParseResponse | src/adapters/GoogleAdapter.ts:29-35 | a nullish response throws; the output is the first candidate's first part text, or "" when it is falsy; the usage is `usageMetadata`, or `{}` when that is falsy; `raw` is the response |
| GoogleAdapter.ValidateConfig | src/adapters/GoogleAdapter.ts:37-43 | a `null` config throws; otherwise the verdict is true iff the config is an object, the temperature is absent or in [0, 1] and `maxTokens` is absent or positive |
| GoogleAdapter.DefaultConfigValid | src/adapters/GoogleAdapter.ts:37-51 | `getDefaultConfig()` passes `validateConfig` |
| GoogleAdapter.BuiltFields | src/adapters/GoogleAdapter.ts:13-27 | for any object config the request is built, with temperature `?? 0.7`, maxOutputTokens `?? 512` and the instruction text `systemPrompt`, or fallback when that is falsy |
| GoogleAdapter.DefaultConfigRequest | src/adapters/GoogleAdapter.ts:13-51 | the default config yields temperature 0.7, 512 output tokens and the Gemini default prompt |
| GoogleAdapter.EmptyConfigRequest | src/adapters/GoogleAdapter.ts:13-27 | the config `{}` yields temperature 0.7, 512 output tokens and the fallback prompt "You are a helpful AI assistant." |
| GoogleAdapter.DefaultConfigPromptDiffers | src/adapters/GoogleAdapter.ts:20-49 | the default config and `{}` give the same generation config but different system instructions, because the default prompt differs from the fallback |
| DeepSeekAdapter.BuildRequest | src/adapters/DeepSeekAdapter.ts:12-23 | a nullish config throws; otherwise the body has exactly the keys model, messages, temperature and max_tokens; the model is the adapter's model name; the messages are [system, user] with the user content equal to the input and the system content `systemPrompt`, or "You are helpful." when that is falsy; temperature and max_tokens are the config values `??` 0.7 and 512 |
| DeepSeekAdapter.ParseResponse | src/adapters/DeepSeekAdapter.ts:24-30 | a nullish response throws; the output is the first choice's content, or "" when it is falsy; the usage is `usage`, or `{}` when that is falsy; `raw` is the response |
| DeepSeekAdapter.ValidateConfig | src/adapters/DeepSeekAdapter.ts:31-37 | a `null` config throws; otherwise the verdict is true iff the config is an object, the temperature is absent or in [0, 1] and `maxTokens` is absent or positive |
| DeepSeekAdapter.DefaultConfigValid | src/adapters/DeepSeekAdapter.ts:31-44 | `getDefaultConfig()` passes `validateConfig` |
| DeepSeekAdapter.PromptChangesRequest | src/adapters/DeepSeekAdapter.ts:14-22 | a truthy `systemPrompt` other than the fallback gives a request that differs from the one built from `{}` |
| DeepSeekAdapter.DefaultPromptNotFallback | src/adapters/DeepSeekAdapter.ts:14-44 | the default config's prompt "You are a helpful assistant." is not the fallback "You are helpful.", so the default config and `{}` give different requests |
| AnthropicAdapter.BuildRequest | src/adapters/AnthropicAdapter.ts:13-23 | a nullish config throws; otherwise the body has exactly the keys model, messages, temperature and max_tokens; the model is the adapter's model name; the messages are [system, user] with the user content equal to the input and the system content `systemPrompt`, or "You are Claude, a helpful AI assistant." when that is falsy; temperature and max_tokens are the config values `??` 0.7 and 512 |
| AnthropicAdapter.ParseResponse | src/adapters/AnthropicAdapter.ts:25-31 | a nullish response throws; the output is the first content block's text, or "" when it is falsy; the usage is `usage`, or `{}` when that is falsy; `raw` is the response |
| AnthropicAdapter.ValidateConfig | src/adapters/AnthropicAdapter.ts:33-39 | a `null` config throws; otherwise the verdict is true iff the config is an object, the temperature is absent or in [0, 1] and `maxTokens` is absent or positive |
| AnthropicAdapter.DefaultConfigValid | src/adapters/AnthropicAdapter.ts:33-47 | `getDefaultConfig()` passes `validateConfig` |
| AnthropicAdapter.DefaultConfigMatchesFallbacks | src/adapters/AnthropicAdapter.ts:13-47 | building from the default config gives the same request as building from `{}` |
| ModelAdapter.NewGoogle | src/adapters/GoogleAdapter.ts:9-11 | an omitted model name becomes "gemini-2.5-pro"; a given one is kept |
| ModelAdapter.NewAnthropic | src/adapters/AnthropicAdapter.ts:9-11 | an omitted model name becomes "claude-3.7-sonnet"; a given one is kept |
| ModelAdapter.BuildRequest | src/adapters/ModelAdapter.ts:4 | dispatch to the adapter class; every adapter throws exactly on a nullish config |
| ModelAdapter.ParseResponse | src/adapters/ModelAdapter.ts:5 | dispatch to the adapter class; every adapter throws on a nullish response |
| ModelAdapter.ValidateConfig | src/adapters/ModelAdapter.ts:6 | dispatch to the adapter class; only a nullish config can throw |
| ModelAdapter.DefaultConfigsValid | src/adapters/ModelAdapter.ts:6 | every adapter that has `getDefaultConfig` accepts its own default config |
| ModelAdapter.ParseInputOnly | src/adapters/ModelAdapter.ts:5 | every adapter parses the payload `{ input }` to the output "" |
| ModelAdapter.FindFirst | src/adapters/adapterRegistry.ts:6-9 | a registry lookup succeeds iff some entry has the key, and then it returns the first such entry |
| Providers.ProvidersTableCount | src/pages/api-keys/apiKeyProviders.ts:2-106 | the PROVIDERS table lists 49 (provider, model) pairs |
| ExecuteNode.Execute | src/flow/executeNode.ts:8-22 | a missing or empty `modelId` throws "Node missing modelId"; an id with no exact registry entry throws "Missing adapter for model: " + id; a config (`{}` when absent) the adapter rejects throws "Invalid config"; in each of these cases no request is sent; a request is sent iff every guard passes, to "/api/execute/" + id with the adapter's request for the input and the config; the result is then the adapter's parse of the reply |
| ExecuteNode.UnconfiguredOpenAIRejected | src/flow/executeNode.ts:12 | with the shipped registry, a "gpt-4o" node without a config fails with "Invalid config" and sends nothing |
| ExecuteNode.LookupIsCaseSensitive | src/flow/executeNode.ts:10-11 | with the shipped registry, "GPT-4o" finds no adapter: the lookup has no case-insensitive fallback |
| FlowNodeValidation.FirstLowerMatch | src/utils/modelValidation/flowNode.ts:13-16 | the index of the first registry key whose lower-case form is the target, or none when no key matches |
| FlowNodeValidation.FindAtFirstLowerMatch | src/utils/modelValidation/flowNode.ts:18-20 | reading the registry under the key that the case-insensitive search found returns that key's entry |
| FlowNodeValidation.FindAdapterForModel | src/utils/modelValidation/flowNode.ts:7-24 | an exact match is returned as is; otherwise an adapter is found iff some key equals the id up to case and the first such key is not "", and it is the entry of that first key |
| FlowNodeValidation.ValidateFlowNodeConfig | src/utils/modelValidation/flowNode.ts:29-76 | the verdict is that of the case-insensitive lookup fed to the shared verdict rules (see ConfigValidation.NodeVerdict); `isValid` holds iff `errors` is empty |
| FlowNodeValidation.FindsDifferentlyCasedId | src/utils/modelValidation/flowNode.ts:12-21 | with the shipped registry, "GPT-4O" finds the "gpt-4o" adapter |
| FlowNodeValidation.RejectedOpenAIConfigThrows | src/utils/modelValidation/flowNode.ts:55-59 | a config the shipped "gpt-4o" adapter rejects makes the validator throw, because `OpenAIAdapter` has no `getDefaultConfig` |
| ConfigValidation.EntryError | src/utils/modelValidation/flowNode.ts:60-69 | one config entry contributes no message iff its key is in the defaults and its `typeof` equals the default's |
| ConfigValidation.ConfigErrors | src/utils/modelValidation/flowNode.ts:60-69 | at most one message per config entry |
| ConfigValidation.ConfigErrorsEmptyIff | src/utils/modelValidation/flowNode.ts:60-69 | the per-key pass yields no message iff every entry's key is in the defaults with a value of the same `typeof` |
| ConfigValidation.ConfigErrorsAppend | src/utils/modelValidation/flowNode.ts:60-69 | the messages for a concatenation of entries are the messages of the parts, in order |
| ConfigValidation.ConfigErrorsSingle | src/utils/modelValidation/flowNode.ts:61-68 | one entry contributes exactly its own type-mismatch or unknown-key message, or nothing when it fits |
| ConfigValidation.CollectConfigErrors | src/utils/modelValidation/flowNode.ts:60-69 | the `forEach` appends exactly the per-key messages, in config-entry order, to the errors already pushed |
| ConfigValidation.AdapterVerdict | src/utils/modelValidation/flowNode.ts:50-75 | an absent config is valid with no errors; a config the adapter accepts is valid with no errors; a rejected config gives `isValid` false with the generic message followed by the per-key messages, or throws when the adapter has no `getDefaultConfig`; `isValid` holds iff `errors` is empty |
| ConfigValidation.NodeVerdict | src/utils/modelValidation/flowNode.ts:38-48 | a missing or empty `modelId` gives exactly ["Flow node is missing modelId"]; an id with no adapter gives exactly one invalid-id error; otherwise the adapter verdict applies; `isValid` holds iff `errors` is empty |
| ConfigValidation.CheckWithAdapter | src/utils/modelValidation/flowNode.ts:50-75 | the method that runs the guard and the per-key loop returns the adapter verdict |
| ModelValidation.ProviderModelMapLastWins | src/utils/modelValidation.ts:18-24 | `providerModels` has an entry for a name iff some provider of PROVIDERS has it, and the entry holds the models of the last provider of that name |
| ModelValidation.ProviderModelError | src/utils/modelValidation.ts:29-33 | a PROVIDERS model raises no message iff it is registered with the same provider name |
| ModelValidation.ModelErrors | src/utils/modelValidation.ts:28-34 | at most one message per model of a provider |
| ModelValidation.ProviderSideErrors | src/utils/modelValidation.ts:27-35 | at most one message per (provider, model) row of PROVIDERS |
| ModelValidation.RegistryEntryError | src/utils/modelValidation.ts:39-44 | a registry entry raises no message iff its provider name is in `providerModels` and that provider's set holds the model id |
| ModelValidation.RegistrySideErrors | src/utils/modelValidation.ts:38-45 | at most one message per registry entry |
| ModelValidation.ModelErrorsEmptyIff | src/utils/modelValidation.ts:28-34 | one provider's models raise no message iff each is registered with that provider's name |
| ModelValidation.ProviderSideEmptyIff | src/utils/modelValidation.ts:27-35 | the first pass raises no message iff every PROVIDERS model is registered under its provider's name |
| ModelValidation.RegistrySideEmptyIff | src/utils/modelValidation.ts:38-45 | the second pass raises no message iff every registry entry is listed under its provider |
| ModelValidation.ConsistencyValidIff | src/utils/modelValidation.ts:11-51 | `isValid` holds iff there are no errors, iff both tables cover each other; all PROVIDERS-side messages precede all registry-side ones |
| ModelValidation.FindDistinct | src/adapters/adapterRegistry.ts:6-9 | with distinct registry keys, the lookup under an entry's key returns that entry |
| ModelValidation.CoincidingTablesConsistent | src/utils/modelValidation.ts:11-51 | when provider names and registry keys are distinct and the (provider, model) pairs of the two tables coincide, the result is `{ isValid: true, errors: [] }` |
| ModelValidation.AllFlaggedCount | src/utils/modelValidation.ts:27-35 | when no PROVIDERS model is registered under its name, the first pass adds exactly one message per (provider, model) row |
| ModelValidation.ModelErrorsAllFlagged | src/utils/modelValidation.ts:28-34 | when none of a provider's models is registered under its name, each adds exactly one message |
| ModelValidation.ShippedRegistryNamesNoProvider | src/adapters/adapterRegistry.ts:6-9 | no model of the shipped registry is registered under any provider name, since its one adapter has no `providerName` |
| ModelValidation.ShippedRegistrySide | src/utils/modelValidation.ts:38-45 | the one shipped registry entry adds exactly the message that "gpt-4o" has provider "undefined", which is not in the PROVIDERS list |
| ModelValidation.ShippedTablesInconsistent | src/utils/modelValidation.ts:11-51 | on the shipped tables the check fails with 50 errors, one per PROVIDERS model and the unlisted-provider message last |
| ModelValidation.BuildProviderModels | src/utils/modelValidation.ts:18-24 | the loop builds exactly the last-wins map of provider names to model sets |
| ModelValidation.CheckProviderModels | src/utils/modelValidation.ts:28-34 | the inner `forEach` pushes exactly the messages of one provider's models, in list order |
| ModelValidation.CheckProviders | src/utils/modelValidation.ts:27-35 | the outer `forEach` pushes exactly the PROVIDERS-side messages, in table order |
| ModelValidation.CheckRegistryEntries | src/utils/modelValidation.ts:38-45 | the `forEach` over the registry pushes exactly the registry-side messages, in entry order |
| ModelValidation.ValidateModelRegistryConsistency | src/utils/modelValidation.ts:11-51 | the method returns the verdict the consistency lemmas describe |
| ModelValidation.ProviderItems | src/utils/modelValidation.ts:105 | one (provider name, adapter) pair per registry entry, in order |
| ModelValidation.KeyTypeErrorsEmptyIff | src/utils/modelValidation.ts:125-131 | no type error is pushed iff every key of the first defaults that the later defaults also have keeps its `typeof` |
| ModelValidation.MissingKeyWarningsEmptyIff | src/utils/modelValidation.ts:125-131 | no missing-key warning is pushed iff every key of the first defaults is a key of the later defaults |
| ModelValidation.ExtraKeyWarningsEmptyIff | src/utils/modelValidation.ts:134-138 | no extra-key warning is pushed iff every key of the later defaults is a key of the first defaults |
| ModelValidation.ConfigIssuesIff | src/utils/modelValidation.ts:120-139 | comparing a later adapter with the first raises no warning iff the two key sets are equal, and no error iff every shared key has the same `typeof` in both |
| ModelValidation.LaterIssuesThrowSticks | src/utils/modelValidation.ts:120-139 | once a later adapter throws, the adapters after it are not looked at |
| ModelValidation.AllGroupIssuesThrowSticks | src/utils/modelValidation.ts:113-140 | once a provider group throws, the groups after it are not looked at |
| ModelValidation.LaterIssuesThrowIff | src/utils/modelValidation.ts:120-122 | the later adapters throw iff one of them has no `getDefaultConfig`, with the TypeError of that call |
| ModelValidation.GroupIssuesThrowIff | src/utils/modelValidation.ts:113-122 | a group of at most one adapter raises nothing; a group throws iff it has more than one adapter and one of them has no `getDefaultConfig` |
| ModelValidation.LaterIssuesUniform | src/utils/modelValidation.ts:120-139 | later adapters whose defaults equal the first adapter's raise nothing |
| ModelValidation.SmallGroupsSkipped | src/utils/modelValidation.ts:113-114 | when every provider has at most one adapter, the check raises nothing |
| ModelValidation.ShippedCompatible | src/utils/modelValidation.ts:94-147 | on the shipped registry the result is `{ isValid: true, errors: [], warnings: [] }` |
| ModelValidation.CheckSharedKeys | src/utils/modelValidation.ts:125-131 | the `forEach` over the first defaults' keys pushes exactly the type errors and the missing-key warnings, in key order |
| ModelValidation.CheckExtraKeys | src/utils/modelValidation.ts:134-138 | the `forEach` over the later defaults' keys pushes exactly the extra-key warnings, in key order |
| ModelValidation.CheckLaterAdapters | src/utils/modelValidation.ts:120-139 | the `forEach` over the later adapters pushes exactly their issues, or stops at the first TypeError |
| ModelValidation.CheckGroup | src/utils/modelValidation.ts:113-140 | one provider's group is skipped when small, and otherwise checked against its first adapter |
| ModelValidation.CheckGroups | src/utils/modelValidation.ts:103-140 | the groups are checked in insertion order, stopping at the first throw |
| ModelValidation.ValidateConfigurationCompatibility | src/utils/modelValidation.ts:94-147 | the method returns the grouped result, with `isValid` true iff no error was pushed |
| ModelValidation.MemberErrors | src/utils/modelValidation.ts:62-83 | one registry entry raises no message iff its adapter declares a non-empty `modelName`, a `providerName`, a `supportedFeatures` array and `getDefaultConfig` |
| ModelValidation.ImplementationErrorsEmptyIff | src/utils/modelValidation.ts:56-89 | the check reports nothing iff every registered adapter is complete |
| ModelValidation.OnlyOpenAIIncomplete | src/utils/modelValidation.ts:62-83 | an adapter is complete iff it is not an `OpenAIAdapter` and its model name is not empty |
| ModelValidation.ShippedImplementationErrors | src/utils/modelValidation.ts:62-83 | the shipped "gpt-4o" adapter gets exactly the three messages for `providerName`, `supportedFeatures` and `getDefaultConfig` |
| ModelValidation.CheckMembers | src/utils/modelValidation.ts:63-82 | the member checks of one entry push exactly its messages, in check order |
| ModelValidation.ValidateAdapterImplementations | src/utils/modelValidation.ts:56-89 | the method returns all entries' messages in registry order, with `isValid` true iff there are none |
| ModelValidation.ModelSystemValidIff | src/utils/modelValidation.ts:152-176 | the combined check throws iff the compatibility check does; otherwise it is valid iff the tables cover each other, every adapter is complete and the compatibility check has no error; its warnings are only the compatibility warnings |
| ModelValidation.ShippedModelSystem | src/utils/modelValidation.ts:152-176 | on the shipped tables the combined check fails with 53 errors and no warning |
| ModelValidation.ValidateModelSystem | src/utils/modelValidation.ts:152-176 | the method concatenates the registry, adapter and compatibility errors in that order and keeps only the compatibility warnings |
| ModelValidation.ValidateFlowNodeConfig | src/utils/modelValidation.ts:181-227 | with the exact lookup, the verdict follows the shared rules of ConfigValidation.NodeVerdict; `isValid` holds iff `errors` is empty |
| ModelValidation.ExactAgreesOnRegisteredIds | src/utils/modelValidation.ts:195-199 | for an id registered exactly, the two copies of `validateFlowNodeConfig` return the same result |
| ModelValidation.ExactRejectsOtherCase | src/utils/modelValidation.ts:195-199 | for "GPT-4O" with the shipped registry, this copy reports an invalid id while the case-insensitive copy accepts it |
| ModelValidation.BeforeExecutionThrowIff | src/utils/modelValidation.ts:232-260 | the pre-run check throws iff the validation of some model node with a model id throws |
| ModelValidation.BeforeExecutionValidIff | src/utils/modelValidation.ts:232-260 | when it returns, the pre-run check returns true iff no model node with a model id fails validation; other nodes play no part |
| ModelValidation.ValidateBeforeExecution | src/utils/modelValidation.ts:232-260 | the loop returns the pre-run verdict, and a throwing validation escapes |
| ModelValidation.BeforeExecutionThrowSticks | src/utils/modelValidation.ts:237-247 | once a node's validation throws, the later nodes are not looked at |
| RegistryValidation.ValidateModelRegistryConsistency | src/utils/modelValidation/registry.ts:6-46 | this copy returns exactly the result of `src/utils/modelValidation.ts`'s copy on every pair of tables: the PROVIDERS-side messages, then the registry-side ones, valid iff there are none |
| ModelRegistryV2.DescriptorFirst | src/adapters/modelRegistryV2.ts:483-485 | looking up an id finds something iff the registry lists that id, and then it finds the id's first entry |
| ModelRegistryV2.IsValidModelIdIff | src/adapters/modelRegistryV2.ts:504-506 | the corrected `isValidModelId` holds iff the id is one of the registry's own keys |
| ModelRegistryV2.AsWrittenAcceptsToString | src/adapters/modelRegistryV2.ts:504-506 | `modelId in modelRegistry` as written accepts "toString" for a registry without such a model, although no descriptor exists for it |
| ModelRegistryV2.GetModelDescriptor | src/adapters/modelRegistryV2.ts:483-485 | for a valid id, the descriptor is one the registry lists under that id |
| ModelRegistryV2.DescriptorOfEntry | src/adapters/modelRegistryV2.ts:483-485 | when the ids are distinct, the lookup under an entry's id returns that entry's descriptor |
| ModelRegistryV2.ProviderIds | src/adapters/modelRegistryV2.ts:490-494 | one (provider, model id) pair per registry entry, in entry order |
| ModelRegistryV2.GetModelsByProvider | src/adapters/modelRegistryV2.ts:487-498 | the pass builds one list per provider, holding exactly that provider's model ids in registry order; the providers are distinct and are exactly the table's providers |
| ModelRegistryV2.ListedOnce | src/adapters/modelRegistryV2.ts:487-498 | when the ids are distinct, a provider's list holds an id once if the id's descriptor names that provider, and not at all otherwise |
| ModelRegistryV2.NoEmptyProvider | src/adapters/modelRegistryV2.ts:491-494 | every provider key of the result has at least one model id |
| ModelRegistryV2.AllProvidersAreGroupKeys | src/adapters/modelRegistryV2.ts:500-502 | `getAllProviders()` lists distinct providers, exactly those of the table, in the same order as the keys of `getModelsByProvider()` |
| RouterV2.GetDescriptor | src/adapters/routerV2.ts:65-70 | behind the own-key guard (see Findings), throws `ModelNotFoundError(modelId)` iff the registry does not list the id; otherwise returns a descriptor listed under that id |
| RouterV2.GetDefaultConfig | src/adapters/routerV2.ts:75-78 | behind the own-key guard, throws `ModelNotFoundError` iff the id is not listed; otherwise returns the `defaultConfig` of an entry for that id |
| RouterV2.HasCapability | src/adapters/routerV2.ts:83-86 | behind the own-key guard, throws `ModelNotFoundError` iff the id is not listed; otherwise returns the capability flag of an entry for that id |
| RouterV2.LookupsOfEntry | src/adapters/routerV2.ts:65-86 | when the ids are distinct, the three lookups answer from the id's own entry |
| RouterV2.Outcome | src/adapters/routerV2.ts:15-60 | behind the own-key guard, an unlisted id throws `ModelNotFoundError` before any call; without a non-empty `userId` the session is looked up, and no session throws the sign-in error; the edge function is invoked with the chosen user; the call succeeds with the reply's data iff the id is listed, a user was found, and neither `error` nor `data.error` is truthy |
| RouterV2.Execute | src/adapters/routerV2.ts:15-60 | the method's result and its external calls are exactly those of the outcome above |
| RouterV2.AsWrittenExecuteInvokesToString | src/adapters/routerV2.ts:24-46 | behind the guard as written, `execute("toString")` on a table without that model passes the check and invokes the edge function; behind the own-key guard it throws before any call |
| Grouping.GroupByGroups | src/adapters/modelRegistryV2.ts:490-495 | grouping makes distinct keys, each group holds exactly the values of its key in item order, and the groups' keys are exactly the items' keys |
| Grouping.GroupInPlace | src/utils/modelValidation.ts:103-110 | the `forEach` that fills a `Map` of arrays builds exactly the grouping of its items |
| Grouping.GroupKeysFirstOccurrence | src/adapters/modelRegistryV2.ts:500-502 | the groups come in the order in which their keys first occur, as `new Set` keeps them |
| Grouping.ValuesNonEmpty | src/adapters/modelRegistryV2.ts:491-494 | a key that some item carries has at least one value |
| Grouping.Unique | src/adapters/modelRegistryV2.ts:501 | `[...new Set(xs)]` has no repeated element and holds exactly the elements of `xs` |
| ResolveDag.IdIndex | src/flow/resolveDAG.ts:11 | `idToNode` has exactly the graph's ids as keys, maps each to a node carrying that id, and a later node overwrites an earlier one |
| ResolveDag.IndexOfUnique | src/flow/resolveDAG.ts:11 | with unique ids, `idToNode` maps each node's id to that node |
| ResolveDag.Dependents | src/flow/resolveDAG.ts:19 | the dependents of an id are exactly the nodes whose `inputNodeIds` include it |
| ResolveDag.Roots | src/flow/resolveDAG.ts:25 | the roots are exactly the nodes with no `inputNodeIds` or an empty list |
| ResolveDag.VisitFrom | src/flow/resolveDAG.ts:13-23 | a visit makes sure `levels[level]` exists, never shrinks the levels, and only adds to `visited` |
| ResolveDag.VisitFromExtends | src/flow/resolveDAG.ts:13-23 | a visit only appends levels and pushes onto them: nothing placed is removed or moved |
| ResolveDag.VisitFromInv | src/flow/resolveDAG.ts:13-23 | from a justified id, a visit keeps every entry the `idToNode` node of its id, justified at its level, placed once, with the placed ids equal to `visited` |
| ResolveDag.VisitFromClosed | src/flow/resolveDAG.ts:13-23 | a visit marks its id, and every id it marks has all its dependents visited by the time it returns |
| ResolveDag.VisitRootsInv | src/flow/resolveDAG.ts:26 | the roots loop keeps the walk's invariant |
| ResolveDag.VisitRootsClosed | src/flow/resolveDAG.ts:26 | after the roots loop every root is visited and the visited ids are closed under dependents |
| ResolveDag.Resolve | src/flow/resolveDAG.ts:8-29 | the levels place each id at most once, each entry is the node of its id, every root is placed, and the placed ids are closed under "is an input of" |
| ResolveDag.ResolveEntries | src/flow/resolveDAG.ts:17 | every entry of the result is a node of the graph, the one registered under its id |
| ResolveDag.ResolveClosed | src/flow/resolveDAG.ts:19-22 | every dependent of a placed id is placed |
| ResolveDag.ResolveJustified | src/flow/resolveDAG.ts:13-26 | a level-0 entry has the id of a root; an entry at level k >= 1 lists among its inputs an id placed at level k-1 |
| ResolveDag.PathPlaced | src/flow/resolveDAG.ts:8-29 | the end of every path from a root along "is an input of" edges is placed |
| ResolveDag.PlacedAtLevelHasPath | src/flow/resolveDAG.ts:13-23 | an entry at level k ends a path from a root with exactly k edges |
| ResolveDag.PlacedIffReachable | src/flow/resolveDAG.ts:8-29 | an id is placed iff it is reachable from some root |
| ResolveDag.RootsAtLevelZero | src/flow/resolveDAG.ts:25-26 | with unique ids, level 0 holds exactly the roots |
| ResolveDag.SingleInputOneBelow | src/flow/resolveDAG.ts:19-21 | with unique ids, an entry below level 0 whose only input is `p` sits one level below `p` |
| ResolveDag.Visit | src/flow/resolveDAG.ts:13-23 | the recursive `visit`, updating the captured `levels` and `visited`, ends in the state the visit above describes |
| ResolveDag.VisitDependents | src/flow/resolveDAG.ts:20-22 | the dependents loop ends in the state of visiting each dependent in turn |
| ResolveDag.ResolveDAG | src/flow/resolveDAG.ts:8-29 | `resolveDAG` returns exactly the levels described above |
| ResolveDagExample.NotTopological | src/flow/resolveDAG.ts:8-29 | for nodes A, C (inputs A and B), B (input A) in that order, the result is [[A], [C, B], []]: C shares a level with its input B, and the last level is empty |
| MockRunner.RunLevelThrowSticks | src/flow/MockRunner.ts:20-29 | once a node of a level throws, the rest of the level is not run and the level throws the same error |
| MockRunner.RunLevelsThrowSticks | src/flow/MockRunner.ts:19-30 | once a level throws, the later levels are not run and the run throws the same error |
| MockRunner.StepStoresEmpty | src/flow/MockRunner.ts:21-28 | one node's step stores "" under its id when it finds an adapter (the `{ input }` payload carries no provider fields), and otherwise throws the TypeError of calling `parseResponse` on `undefined` |
| MockRunner.RunLevelOutcome | src/flow/MockRunner.ts:20-29 | a level throws iff one of its nodes finds no adapter, and otherwise stores "" under each of its ids |
| MockRunner.RunLevelsOutcome | src/flow/MockRunner.ts:19-30 | the levels throw iff some node finds no adapter, and otherwise store "" under every placed id and keep every other key |
| MockRunner.SimulatedFlowOutcome | src/flow/MockRunner.ts:12-33 | a simulated run throws iff some node `resolveDAG` places finds no adapter; otherwise its context has the keys of `inputs` plus the placed ids, maps each placed id to "" and keeps every other input |
| MockRunner.ShippedRegistryAdapter | src/flow/MockRunner.ts:22-24 | with the shipped registry, which has no "mock-model" entry, a node finds an adapter iff its `modelId` is "gpt-4o" |
| MockRunner.RunLevelInPlace | src/flow/MockRunner.ts:20-29 | the inner loop, overwriting one context entry per node, ends in the level's outcome |
| MockRunner.RunLevelsInPlace | src/flow/MockRunner.ts:17-30 | the outer loop, starting from a copy of `inputs`, ends in the levels' outcome |
| MockRunner.RunSimulatedFlow | src/flow/MockRunner.ts:12-33 | `runSimulatedFlow` returns the outcome of running the levels of `resolveDAG(flowNodes)` from `inputs` |
| AiRouterPayloads.MessageArray | supabase/functions/ai-router/index.ts:63-64 | calling `find` or `filter` on `request.messages` succeeds iff it is an array, and then works on its elements |
| AiRouterPayloads.FindRole | supabase/functions/ai-router/index.ts:63 | `find(m => m.role === role)` yields the first message with that role, or `undefined` when none has it, and throws iff a nullish message comes before the first match |
| AiRouterPayloads.DropRole | supabase/functions/ai-router/index.ts:64 | `filter(m => m.role !== role)` throws iff some message is nullish; otherwise it returns exactly the messages of other roles, in order and with their repetitions |
| AiRouterPayloads.OtherRolesAppend | supabase/functions/ai-router/index.ts:64 | selecting the messages of other roles distributes over concatenation, so the selection keeps the messages' order |
| AiRouterPayloads.OtherRolesMembers | supabase/functions/ai-router/index.ts:64 | a message is selected iff it occurs in the list and its role is not the dropped one |
| AiRouterPayloads.OtherRolesKeepsAll | supabase/functions/ai-router/index.ts:64 | a list without a message of the dropped role is kept unchanged |
| AiRouterPayloads.BuildOpenAI | supabase/functions/ai-router/index.ts:15-40 | the model and messages are passed through; "o3", "o3-mini" and "o4-mini" get `max_completion_tokens` (`maxTokens`, or 512 when that is falsy) and no temperature, every other model `max_tokens` the same way and `temperature ?? 0.7`; the web-search tool is added iff `enableWebSearch` is truthy and the model is "gpt-4.1" or "gpt-4.1-mini-2025-04-14" |
| AiRouterPayloads.MinWith | supabase/functions/ai-router/index.ts:70 | `Math.min(v, 16384)` is a number iff `v` converts to one, and is then the smaller of the two: at most the cap, at most `Number(v)`, and equal to one of them |
| AiRouterPayloads.SystemPrompt | supabase/functions/ai-router/index.ts:63 | a truthy `systemPrompt` is used as it is, without searching the messages; otherwise the result is the `content` of the first system message (`undefined` when there is none), and it throws iff `messages` is not an array or the search meets a nullish message first |
| AiRouterPayloads.BuildAnthropic | supabase/functions/ai-router/index.ts:59-72 | the body is built iff `messages` is an array with no nullish element and the system prompt can be read; its `messages` are exactly the non-system messages in order, `system` is the prompt or the Claude default when that is falsy, `max_tokens` is `Math.min` of `maxTokens` (4096 when falsy) and 16384, hence at most 16384 and exactly 4096 when `maxTokens` is falsy, and `temperature` is `?? 0.7` |
| AiRouterPayloads.GeminiTurn | supabase/functions/ai-router/index.ts:98-101 | an "assistant" message becomes a "model" turn, every other role a "user" turn, with the message content as its text |
| AiRouterPayloads.BuildGoogle | supabase/functions/ai-router/index.ts:92-113 | the body is built iff `messages` is an array with no nullish element and the system prompt can be read; `contents` has one turn per non-system message, in order; `temperature` is `?? 0.7` and `maxOutputTokens` is `maxTokens`, or 512 when that is falsy; `systemInstruction` is set iff the system prompt is truthy, and then holds it |
| AiRouterPayloads.BuildChat | supabase/functions/ai-router/index.ts:131-139 | the Mistral, XAI and DeepSeek body passes the model and messages through, with `temperature ?? 0.7` and `max_tokens` defaulting to 512 |
| AiRouterPayloads.BuildCohere | supabase/functions/ai-router/index.ts:158-171 | the body is built iff `messages` is an array, the search for the first user message meets no nullish message first, and the system prompt can be read; `message` is the first user message's content, or "" when that is falsy; `preamble` is the system prompt or the default; temperature and token defaults as for the chat providers |
| AiRouterPayloads.BuildPerplexity | supabase/functions/ai-router/index.ts:245-258 | model and messages are passed through, `max_tokens` defaults to 8000, and the fixed settings are top_p 0.9, no images, no related questions, frequency penalty 1 and presence penalty 0 |
| AiRouterPayloads.KindOf | supabase/functions/ai-router/index.ts:479-505 | a provider name matches a `case` label only when it is that label |
| AiRouterPayloads.BuildPayload | supabase/functions/ai-router/index.ts:479-505 | an unknown provider, and `Mock`, throw `Unsupported provider`; each other provider gets the body of its own builder: OpenAI its own, Mistral and XAI the chat body, DeepSeek the chat body with the model id lower-cased, Perplexity its own, and Anthropic, Google and Cohere the result of their fallible builders, whose errors pass through unchanged |
| AiRouterPayloads.ParseResponse | supabase/functions/ai-router/index.ts:315-399 | throws iff the provider is unknown (`Unknown provider`) or is not `Mock` and its reply is nullish; `Mock` answers its fixed response; any other known provider's reply is read along that provider's paths, with `citations` present, defaulting to [], iff the provider is Perplexity |
| AiRouterPayloads.Parse | supabase/functions/ai-router/index.ts:316-395 | the output is the text at the provider's path (`choices[0].message.content`, `content[0].text`, `candidates[0].content.parts[0].text` or `generations[0].text`), or "" when that is falsy, and the two counts are those at its usage path, or 0; `raw` is the reply; the mock reply is fixed |
| AiRouterPayloads.EmptyReplyDefaults | supabase/functions/ai-router/index.ts:316-388 | an empty reply parses to output "" and zero tokens for every provider that is called |
| AiRouterPayloads.ParseReadsReply | supabase/functions/ai-router/index.ts:315-399 | a reply in a provider's own shape, carrying a non-empty text and truthy token counts, parses to exactly that text and those counts, with the reply as `raw` and `citations` [] for Perplexity |
| AiRouterPayloads.ReplyFields | supabase/functions/ai-router/index.ts:316-395 | reading such a reply along the provider's paths finds the text and counts placed there |
| AiRouter.RowsFor | supabase/functions/ai-router/index.ts:283-301 | a chain of `.eq` filters returns every row of that user and provider (and model, when given) and no other, and its first row is the first such row of the table |
| AiRouter.RowsForEmptyIff | supabase/functions/ai-router/index.ts:296-301 | the fallback query is empty iff no row belongs to that user and provider |
| AiRouter.GetApiKey | supabase/functions/ai-router/index.ts:278-312 | an unreachable database gives `null`; any key returned belongs to a row of that user and provider |
| AiRouter.ApiKeyFallbackOrder | supabase/functions/ai-router/index.ts:283-307 | a single exact row with a truthy key wins; otherwise the first row of the provider is returned as it is; with no row of that user and provider the result is `null` |
| AiRouter.EdgeLookup | supabase/functions/ai-router/index.ts:455-458 | the lookup finds a descriptor listed under the id, and finds none iff the table has no such id |
| AiRouter.ActualModelId | supabase/functions/ai-router/index.ts:461 | `apiModelId` is sent when it is a non-empty string, and the requested id otherwise |
| AiRouter.CallProvider | supabase/functions/ai-router/index.ts:472-509 | the key lookup comes first; a falsy key throws the no-key error with no provider call; with a truthy key, a payload that cannot be built throws its error with no provider call, and a built payload is always sent to the provider; a reply that is not ok throws `<Provider> API error: …`, and an ok reply yields `parseResponse` of its body |
| AiRouter.RouteModel | supabase/functions/ai-router/index.ts:455-509 | an unknown id throws `Model '…' not found in registry` and the mock model answers its fixed response, both with no external call; any other provider is called with `apiModelId` or the requested id |
| AiRouter.Route | supabase/functions/ai-router/index.ts:408-509 | a body without a truthy `modelId`, `request` and `userId` throws before any call, with the missing-parameters message when the body is an object; otherwise the request is routed by the model id |
| AiRouter.Handle | supabase/functions/ai-router/index.ts:401-525 | `OPTIONS` gets the preflight answer with no call; any other request makes the routed calls, answers with the routed standard response when routing succeeds, and otherwise fails with the thrown message, or "Unknown error occurred" when that message is empty |
| AnthropicFunction.MapLookup | supabase/functions/anthropic/index.ts:16-22 | a name found in the mapping is bound to the result there; a name not found has no binding |
| AnthropicFunction.MappingTargetsValid | supabase/functions/anthropic/index.ts:10-22 | every name of the mapping translates to one of the two valid models |
| AnthropicFunction.ValidNamesPassThrough | supabase/functions/anthropic/index.ts:39 | a valid model name is not a key of the mapping and passes through unchanged |
| AnthropicFunction.MessageList | supabase/functions/anthropic/index.ts:51 | `messages.filter` can be called iff `messages` is an array |
| AnthropicFunction.Keep | supabase/functions/anthropic/index.ts:51 | the filter test throws iff the message is nullish or has truthy content that is not a string, and keeps the message iff its content is a string that does not trim to "" |
| AnthropicFunction.UnicodeBlankDropped | supabase/functions/anthropic/index.ts:51 | content made only of a no-break space, a byte-order mark and a line separator trims to "", so the message is dropped |
| AnthropicFunction.FilterThrowIff | supabase/functions/anthropic/index.ts:51 | the filter pass throws iff its test throws on some message |
| AnthropicFunction.FilterKeeps | supabase/functions/anthropic/index.ts:51 | a pass that completes keeps, in order, exactly the messages whose content is a non-blank string |
| AnthropicFunction.RewriteAll | supabase/functions/anthropic/index.ts:67-70 | one outgoing message per kept message, in order |
| AnthropicFunction.RewriteRoles | supabase/functions/anthropic/index.ts:67-70 | no message is sent with the system role: a system message becomes an assistant message, every other role and every content is kept |
| AnthropicFunction.Prepare | supabase/functions/anthropic/index.ts:31-74 | a missing or empty key and then an unknown model name throw their messages in that order; a prepared request carries the key, a valid mapped model, the body's `system`, `max_tokens` or 1024 and `temperature` or 0.7 (each replacing any falsy value), and the rewritten non-blank messages, of which there is at least one |
| AnthropicFunction.FilterNonEmptyIff | supabase/functions/anthropic/index.ts:51-56 | a completed filter leaves some message iff some message has non-blank content |
| AnthropicFunction.PrepareOkIff | supabase/functions/anthropic/index.ts:31-56 | the request is prepared iff the body is an object, the key is configured, the mapped model is valid, `messages` is an array on which the filter does not throw, and some message has non-blank content |
| AnthropicFunction.Handle | supabase/functions/anthropic/index.ts:24-99 | `OPTIONS` gets the preflight answer and nothing is sent; otherwise a request is sent iff it could be prepared; a failed preparation becomes a 500 with its message; the provider's data is forwarded iff the reply is ok, and a failed reply becomes the `Anthropic API error` message |
| LogData.Recent | src/data/logData.ts:153 | `.slice(0, 100)` keeps the first hundred entries (all of them when there are fewer), as a prefix |
| LogData.RecentTwice | src/data/logData.ts:153 | two runs in a row leave the history that one run with both batches, newest first, would leave |
| LogData.HistoryBounded | src/data/logData.ts:153 | the history never holds more than a hundred outputs and starts with the new outputs (the first hundred of them when there are more) |
| LogData.FirstIndex | src/data/logData.ts:160 | the position of the first occurrence of the character, or none when the string lacks it |
| LogData.ReplaceFirst | src/data/logData.ts:160 | `replace('T', ' ')` with a string pattern changes only the first `T` and keeps the length |
| LogData.IsoTimestampShown | src/data/logData.ts:156-160 | an ISO-8601 instant is shown as its date and its time to the second, separated by a space |
| LogData.FormattedTimestampShape | src/data/logData.ts:171 | a shown timestamp has at most nineteen characters, and any `T` left in it comes after the replaced one |
| LogData.Decimal | src/data/logData.ts:163 | the count is rendered as a non-empty string of decimal digits |
| LogData.IsErrorOutput | src/data/logData.ts:168 | an output of type "error" always reports an error; otherwise the test throws iff the output is nullish (reading `toString` fails), and reports an error iff the lower-cased text of the output contains "error" |
| LogData.CapitalisedErrorReported | src/data/logData.ts:168 | the text test ignores case: a string output containing "ERROR" or "Error" is reported as an error whatever its node type |
| JsValues.ContainsToLower | src/data/logData.ts:168 | a string that contains a substring still contains it after both are lower-cased |
| LogData.ErrorEntry | src/data/logData.ts:169-175 | an error entry has type "error", the node's name and the node's shown timestamp |
| LogData.Summary | src/data/logData.ts:158-164 | the summary entry has type "info", agent "Flow Engine" and the details with the number of outputs |
| LogData.ReverseSnoc | src/data/logData.ts:167-177 | unshifting one more entry puts it before the entries unshifted so far |
| LogData.ScanFailsIff | src/data/logData.ts:167-177 | the pass stops iff some output that is not of type "error" holds a nullish output |
| LogData.ScanReversesErrors | src/data/logData.ts:167-177 | a pass that completes leaves one entry per output reporting an error, newest output first |
| LogData.ScanStops | src/data/logData.ts:167-177 | once the pass has thrown, the later outputs change nothing |
| LogData.ScanEntriesAreErrors | src/data/logData.ts:167-177 | every entry the pass adds has type "error" |
| LogData.ScanStep | src/data/logData.ts:168-176 | one more output either throws and adds nothing, or adds its error entry in front, or adds nothing |
| LogData.LogStore.constructor | src/data/logData.ts:5-149 | at load time the history is empty and the log holds the twenty sample entries |
| LogData.LogStore.AddFlowOutputsToHistory | src/data/logData.ts:152-178 | the history becomes the first hundred of the new outputs followed by the old history; the log gains the summary and, in front of it, the error entries of the pass; an error the pass throws is returned after the state change it has made |
| LogData.LogStore.UnshiftErrorEntries | src/data/logData.ts:167-177 | the `forEach` puts the pass's error entries in front of the log, leaves the history alone and returns the error that stopped it |
| LogData.LogStore.LogIfError | src/data/logData.ts:168-176 | one callback of the `forEach`: it throws without logging, unshifts the output's error entry, or does nothing, as the error test says |

## Left out

- ResolveDag: the comment at `src/flow/resolveDAG.ts:4` promises a topological order, but the levels need not be one: a node keeps the level of the first walk that reaches it, so a later, longer path does not move it down. The lemmas prove what the code does guarantee, and `ResolveDagExample.NotTopological` exhibits a flow where a node sits on the same level as one of its inputs.
- The import of `getModelsByProvider` from `src/adapters/adapterRegistry.ts` at `src/utils/modelValidation.ts:2` names no export of that file; the model uses the grouping the validator builds itself.
- OpenAIAdapter: the source class has no `providerName` and no `getDefaultConfig`; the model represents both as absent, and callers that invoke `getDefaultConfig` on it throw a TypeError.
- Object keys are assumed distinct where a lemma says so; lookup on a field list takes the first binding, as an object literal with distinct keys does.
- Loose numeric conversion (`Number(x)` / `>` on non-numbers) treats strings as NaN; numeric strings are not parsed.
- Record lookups (`adapterRegistry[id]`, the edge tables) use own keys only; prototype keys such as "toString" are modelled only for `isValidModelId` and for `execute` behind it (see Findings). The same holds for `key in defaultConfig` in `ConfigValidation.EntryError` and the key checks of `ModelValidation`: for a config key "toString" the source reports a type mismatch where the model reports an unknown property.
- ConfigValidation.ConfigErrors and the key loops of ModelValidation visit keys in field-list order; `Object.entries` and `Object.keys` list integer-like keys ("0", "1", …) first in ascending order, so for such keys the order of the messages can differ.
- FlowNodeValidation.FindAdapterForModel: `JsValues.ToLower` lower-cases ASCII letters only, where `toLowerCase` applies the full Unicode case mapping, so a key that differs from the id only in non-ASCII case ("É" against "é") is not found.
- AiRouterPayloads.BuildPayload: the DeepSeek model id is lower-cased in its ASCII letters only, for the same reason. `LogData.IsErrorOutput` compares against the ASCII word "error", and no non-ASCII character lower-cases to one of its letters, so the ASCII-only mapping decides containment as the full one does.
- GetDescriptor: uses the own-key guard of Findings, so on a prototype name such as "toString" it throws `ModelNotFoundError`, where the source passes its guard and returns the inherited member.
- GetDefaultConfig: uses the own-key guard, so on a prototype name it throws, where the source returns `undefined` (the inherited member has no `defaultConfig`).
- HasCapability: uses the own-key guard, so on a prototype name it throws `ModelNotFoundError`, where the source throws a TypeError reading `capabilities` of the inherited member.
- Outcome: uses the own-key guard, so on a prototype name it throws before any call, where the source goes on to the session lookup and the invoke; `RouterV2.OutcomeAsWritten` and `RouterV2.AsWrittenExecuteInvokesToString` state the source's behaviour.
- Execute: the method follows Outcome and has the same gap on prototype names.
- The messages of TypeErrors the runtime raises (nullish body, failed destructuring) are approximations of the runtime's wording.
- `fetch`, the supabase client, `Deno.env`, `console` and `toast` are external: their results are parameters of the model or are left out.
- Facts about the shipped contents of the V2 model registry (`src/adapters/modelRegistryV2.ts:8-476`) and of the edge functions' model tables are not proved; the lemmas hold for every registry.
- ToText renders numbers and arrays as ""; their JavaScript formatting is not modelled.
- `Date.now()` and `new Date().toISOString()` are each one reading per call, passed in as parameters (`now`, `isoNow`).
- `JSON.stringify` is a parameter of the members that log or send a body.
- A failure of `req.json()` to parse the request body is left out.
- The Express handlers under `src/pages/api/execute`, `supabase/functions/together/index.ts`, workflow storage, the UI components, the logs view's filtering and CSV export, and the API status checker's `Promise.all` are not part of this model.
- `validateAdapterImplementations`: its `typeof adapter.method === "function"` reflection is reduced to presence flags on the adapter variants.
- `getApiKey`: an exception from the key store is modelled as an unreachable store, which yields `null` like the source's `catch`.
- Floating-point numbers are modelled as `real`; rounding is not modelled.
- The seed data of the logs page is a constant list, not read from storage.

## Findings

| source | as written | input that shows it | evidently intended | confidence | as-written member | corrected member |
|---|---|---|---|---|---|---|
| src/adapters/modelRegistryV2.ts:504-506 | `isValidModelId` tests `modelId in modelRegistry`, which also sees keys inherited from `Object.prototype` | `isValidModelId("toString")` is true although `getModelDescriptor("toString")` is no registered model, and `RouterV2.execute` then invokes the edge function with it | true exactly for the registry's own keys | not executed | ModelRegistryV2.AsWrittenAcceptsToString | ModelRegistryV2.IsValidModelIdIff |
