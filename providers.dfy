/** The table of providers and their model ids that the API-key pages list. */
module Providers {

  /** `{ name, models }` */
  datatype Provider = Provider(name: string, models: seq<string>)

  /** `PROVIDERS` */
  const ProvidersTable: seq<Provider> := [
    Provider("OpenAI", ["gpt-4o", "gpt-4.1", "gpt-4o-mini", "gpt-4.5-preview", "gpt-4.1-mini-2025-04-14",
                        "o3", "o3-mini", "o4-mini", "gpt-4o-2024-08-06", "gpt-4.1-2025-04-14",
                        "gpt-5-2025-08-07", "gpt-5-mini-2025-08-07"]),
    Provider("Anthropic", ["claude-3-7-sonnet-20250219", "claude-3-sonnet-20240229", "claude-3-haiku-20240307",
                           "claude-3-opus-20240229", "claude-opus-4-20250514", "claude-opus-4-1-20250805",
                           "claude-sonnet-4-20250514"]),
    Provider("Google Gemini", ["gemini-2.5-flash-preview-04-17", "gemini-2.5-pro-preview-03-25", "gemini-2.0-flash",
                               "gemini-2.0-flash-lite", "gemini-1.5-flash", "gemini-1.5-flash-8b", "gemini-1.5-pro",
                               "gemini-2.5-pro"]),
    Provider("Mistral", ["mistral-large", "mistral-medium", "mistral-small"]),
    Provider("Cohere", ["command-r", "command-r-plus", "command-light"]),
    Provider("XAI", ["grok-3-beta", "grok-3-mini-beta", "Grok-3-beta", "Grok-3-mini-beta", "grok-4", "grok-4-0709",
                     "grok-4-latest"]),
    Provider("DeepSeek", ["deepseek-r1", "deepseek-v3-0324", "DeepSeek-R1", "DeepSeek-V3-0324"]),
    Provider("Mock", ["mock-model"]),
    Provider("Perplexity", ["sonar-pro", "sonar-deep-research"]),
    Provider("Together AI", ["llama-4-maverick-instruct", "llama-4-scout-instruct"])
  ]

  /** The number of (provider, model) rows of a table. */
  function ModelCount(providers: seq<Provider>): nat
    decreases |providers|
  {
    if providers == [] then 0
    else ModelCount(providers[..|providers| - 1]) + |providers[|providers| - 1].models|
  }

  /** PROVIDERS lists 49 models. */
  lemma ProvidersTableCount()
    ensures ModelCount(ProvidersTable) == 49
  {
    var p := ProvidersTable;
    assert p[..1][..0] == [];
    assert ModelCount(p[..1]) == 12;
    assert p[..2][..1] == p[..1];
    assert ModelCount(p[..2]) == 19;
    assert p[..3][..2] == p[..2];
    assert ModelCount(p[..3]) == 27;
    assert p[..4][..3] == p[..3];
    assert ModelCount(p[..4]) == 30;
    assert p[..5][..4] == p[..4];
    assert ModelCount(p[..5]) == 33;
    assert p[..6][..5] == p[..5];
    assert ModelCount(p[..6]) == 40;
    assert p[..7][..6] == p[..6];
    assert ModelCount(p[..7]) == 44;
    assert p[..8][..7] == p[..7];
    assert ModelCount(p[..8]) == 45;
    assert p[..9][..8] == p[..8];
    assert ModelCount(p[..9]) == 47;
    assert p[..10][..9] == p[..9];
    assert p[..10] == p;
  }
}
