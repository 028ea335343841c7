/** Provider selection: the list of providers the backend reports as configured, the
    fallback of the selection to the first of them, and the dropdown built from the
    fixed `PROVIDER_OPTIONS` table. */
module Providers {
  import opened Wrappers
  import opened Sequences

  /** One `[provider, config]` entry of `Object.entries(data.env)`, in entry order. */
  datatype EnvEntry = EnvEntry(provider: string, apiKeyConfigured: bool)

  datatype ProviderOption = ProviderOption(value: string, caption: string, description: string)

  const ProviderOptions: seq<ProviderOption> := [
    ProviderOption("openai", "OpenAI", "GPT-4, GPT-3.5 models"),
    ProviderOption("openrouter", "OpenRouter", "Multiple models via OpenRouter"),
    ProviderOption("xai", "XAI (Grok)", "Grok models with real-time data"),
    ProviderOption("groq", "Groq", "Ultra-fast inference"),
    ProviderOption("perplexity", "Perplexity", "Web-connected AI"),
    ProviderOption("anthropic", "Anthropic", "Claude models"),
    ProviderOption("cohere", "Cohere", "Enterprise language models")
  ]

  /** The provider the panel starts with: `modelParams?.provider || 'openai'`. */
  function InitialProvider(fromParams: Option<string>): (r: string)
    ensures r != ""
    ensures fromParams.Some? && fromParams.value != "" ==> r == fromParams.value
    ensures fromParams.None? || fromParams.value == "" ==> r == "openai"
  {
    match fromParams
    case Some(p) => if p != "" then p else "openai"
    case None => "openai"
  }

  /** The names of the entries whose key is configured, in entry order: a provider is
      listed exactly when some entry for it says `apiKeyConfigured`. */
  function Configured(env: seq<EnvEntry>): (r: seq<string>)
    ensures forall p :: p in r <==> exists e :: e in env && e.provider == p && e.apiKeyConfigured
    ensures |r| <= |env|
  {
    var kept := Filter(env, IsConfigured);
    var r := Map(kept, ProviderOf);
    forall p ensures p in r <==> exists e :: e in env && e.provider == p && e.apiKeyConfigured {
      MapMembers(kept, ProviderOf, p);
    }
    r
  }

  predicate IsConfigured(e: EnvEntry) {
    e.apiKeyConfigured
  }

  function ProviderOf(e: EnvEntry): string {
    e.provider
  }

  /** Entry order is kept: the list for a concatenation is the concatenation of lists. */
  lemma ConfiguredDistributes(a: seq<EnvEntry>, b: seq<EnvEntry>)
    ensures Configured(a + b) == Configured(a) + Configured(b)
  {
    FilterDistributes(a, b, IsConfigured);
    MapDistributes(Filter(a, IsConfigured), Filter(b, IsConfigured), ProviderOf);
  }

  /** The selection after a check: kept when nothing is configured or when it is
      configured, otherwise the first configured provider. */
  function Fallback(configured: seq<string>, current: string): (r: string)
    ensures configured == [] ==> r == current
    ensures current in configured ==> r == current
    ensures configured != [] && current !in configured ==> r == configured[0]
    ensures configured != [] ==> r in configured
  {
    if |configured| > 0 && current !in configured then configured[0] else current
  }

  /** `PROVIDER_OPTIONS.filter(option => available.includes(option.value))`. */
  function FilterOptions(options: seq<ProviderOption>, available: seq<string>): (r: seq<ProviderOption>)
    ensures forall o :: o in r <==> o in options && o.value in available
    ensures |r| <= |options|
  {
    Filter(options, (o: ProviderOption) => o.value in available)
  }

  /** The options the dropdown shows for the available providers. */
  function DropdownOptions(available: seq<string>): (r: seq<ProviderOption>)
    ensures forall o :: o in r <==> o in ProviderOptions && o.value in available
  {
    FilterOptions(ProviderOptions, available)
  }

  /** The dropdown follows the table's order, whatever order the backend lists
      providers in: filtering a concatenation filters each part in place. */
  lemma FilterOptionsDistributes(a: seq<ProviderOption>, b: seq<ProviderOption>, available: seq<string>)
    ensures FilterOptions(a + b, available) == FilterOptions(a, available) + FilterOptions(b, available)
  {
    FilterDistributes(a, b, (o: ProviderOption) => o.value in available);
  }

  /** The fallback draws on the backend's list and the dropdown on the fixed table, so
      when the backend configures only a provider the table does not know, that provider
      becomes the selection while the dropdown offers no option at all. */
  lemma SelectionCanLackAnOption(unknown: string, current: string)
    requires forall o :: o in ProviderOptions ==> o.value != unknown
    requires current != unknown
    ensures var c := Configured([EnvEntry(unknown, true)]);
            && Fallback(c, current) == unknown
            && DropdownOptions(c) == []
  {
    var env := [EnvEntry(unknown, true)];
    assert env[1..] == [];
    var c := Configured(env);
    assert c == [unknown];
    NothingToOffer(ProviderOptions, c);
  }

  lemma NothingToOffer(options: seq<ProviderOption>, available: seq<string>)
    requires forall o :: o in options ==> o.value !in available
    ensures FilterOptions(options, available) == []
  {
    FilterNone(options, (o: ProviderOption) => o.value in available);
  }
}
