/** The static model catalog: the `Model` record and the `allModels` list. */
module Catalog {

  /** One catalog entry. A context limit is a number of tokens. */
  datatype Model = Model(
    id: string,
    name: string,
    category: string,
    provider: string,
    isFree: bool,
    description: string,
    contextLimit: nat)

  /** The OpenAI entries, in catalog order. */
  const OpenAIModels: seq<Model> := [
    Model("openrouter:openai/codex-mini", "Codex Mini", "openai", "OpenAI", false, "Specialized for code generation", 200000),
    Model("openrouter:openai/o4-mini-high", "o4 Mini High", "openai", "OpenAI", false, "Same as o4-mini with reasoning_effort set to high", 200000),
    Model("openrouter:openai/o3", "o3", "openai", "OpenAI", false, "Well-rounded model for math, science, coding, and visual reasoning", 200000),
    Model("openrouter:openai/o4-mini", "o4 Mini", "openai", "OpenAI", false, "Compact reasoning model with multimodal capabilities", 200000),
    Model("openrouter:openai/gpt-4.1", "GPT-4.1", "openai", "OpenAI", false, "Flagship model for advanced instruction following", 1050000),
    Model("openrouter:openai/gpt-4.1-mini", "GPT-4.1 Mini", "openai", "OpenAI", false, "Mid-sized model with 1M context window", 1050000),
    Model("openrouter:openai/gpt-4.1-nano", "GPT-4.1 Nano", "openai", "OpenAI", false, "Fast, low-latency model with 1M context", 1050000),
    Model("openrouter:openai/o1-pro", "o1 Pro", "openai", "OpenAI", false, "Uses more compute for better reasoning", 200000),
    Model("openrouter:openai/gpt-4o-mini-search-preview", "GPT-4o Mini Search Preview", "openai", "OpenAI", false, "Specialized for web search", 128000),
    Model("openrouter:openai/gpt-4o-search-preview", "GPT-4o Search Preview", "openai", "OpenAI", false, "Specialized for web search", 128000),
    Model("openrouter:openai/gpt-4.5-preview", "GPT-4.5 (Preview)", "openai", "OpenAI", false, "Research preview with enhanced reasoning", 128000),
    Model("openrouter:openai/o3-mini-high", "o3 Mini High", "openai", "OpenAI", false, "Same as o3-mini with reasoning_effort set to high", 200000),
    Model("openrouter:openai/o3-mini", "o3 Mini", "openai", "OpenAI", false, "Cost-efficient model for STEM tasks", 200000),
    Model("openrouter:openai/o1", "o1", "openai", "OpenAI", false, "Optimized for math, science, and programming", 200000),
    Model("openrouter:openai/gpt-4o-20241120", "GPT-4o (2024-11-20)", "openai", "OpenAI", false, "Enhanced creative writing and file processing", 128000),
    Model("openrouter:openai/o1-preview-20240912", "o1 Preview (2024-09-12)", "openai", "OpenAI", false, "Experimental model for STEM tasks", 128000),
    Model("openrouter:openai/o1-mini-20240912", "o1 Mini (2024-09-12)", "openai", "OpenAI", false, "Experimental smaller o1 model", 128000),
    Model("openrouter:openai/o1-mini", "o1 Mini", "openai", "OpenAI", false, "Smaller o1 model for STEM tasks", 128000),
    Model("openrouter:openai/o1-preview", "o1 Preview", "openai", "OpenAI", false, "Preview of o1 model", 128000),
    Model("openrouter:openai/chatgpt-4o", "ChatGPT-4o", "openai", "OpenAI", false, "ChatGPT version of GPT-4o with RLHF", 128000),
    Model("openrouter:openai/gpt-4o-20240806", "GPT-4o (2024-08-06)", "openai", "OpenAI", false, "Improved structured outputs", 128000),
    Model("openrouter:openai/gpt-4o-mini-20240718", "GPT-4o Mini (2024-07-18)", "openai", "OpenAI", false, "Cost-effective multimodal model", 128000),
    Model("openrouter:openai/gpt-4o-mini", "GPT-4o Mini", "openai", "OpenAI", false, "Affordable multimodal model", 128000),
    Model("openrouter:openai/gpt-4o", "GPT-4o", "openai", "OpenAI", false, "Fast multimodal model", 128000),
    Model("openrouter:openai/gpt-4o-20240513", "GPT-4o (2024-05-13)", "openai", "OpenAI", false, "Initial GPT-4o release", 128000),
    Model("openrouter:openai/gpt-4-turbo", "GPT-4 Turbo", "openai", "OpenAI", false, "Latest GPT-4 Turbo with vision", 128000),
    Model("openrouter:openai/gpt-4-turbo-preview", "GPT-4 Turbo Preview", "openai", "OpenAI", false, "Preview with improved instruction following", 128000),
    Model("openrouter:openai/gpt-3.5-turbo-instruct", "GPT-3.5 Turbo Instruct", "openai", "OpenAI", false, "Tuned for instructional prompts", 4000),
    Model("openrouter:openai/gpt-4", "GPT-4", "openai", "OpenAI", false, "Flagship model with advanced reasoning", 8000)
  ]

  /** The Anthropic entries, in catalog order. */
  const AnthropicModels: seq<Model> := [
    Model("openrouter:anthropic/claude-3.5-sonnet", "Claude 3.5 Sonnet", "anthropic", "Anthropic", false, "Advanced reasoning and coding", 200000),
    Model("openrouter:anthropic/claude-3-opus", "Claude 3 Opus", "anthropic", "Anthropic", false, "Most capable Claude model", 200000),
    Model("openrouter:anthropic/claude-3-sonnet", "Claude 3 Sonnet", "anthropic", "Anthropic", false, "Balanced Claude model", 200000),
    Model("openrouter:anthropic/claude-3-haiku", "Claude 3 Haiku", "anthropic", "Anthropic", false, "Fast Claude model", 200000)
  ]

  /** The Meta Llama entries, in catalog order. */
  const MetaModels: seq<Model> := [
    Model("openrouter:meta-llama/llama-3.1-405b-instruct", "Llama 3.1 405B", "meta", "Meta", false, "Largest Llama model", 128000),
    Model("openrouter:meta-llama/llama-3.1-70b-instruct", "Llama 3.1 70B", "meta", "Meta", false, "High performance", 128000),
    Model("openrouter:meta-llama/llama-3.1-8b-instruct", "Llama 3.1 8B", "meta", "Meta", true, "Efficient and free", 128000)
  ]

  /** The Mistral entries, in catalog order. */
  const MistralModels: seq<Model> := [
    Model("openrouter:mistralai/mistral-large-2411", "Mistral Large", "mistral", "Mistral AI", false, "Latest large model", 32768),
    Model("openrouter:mistralai/mistral-7b-instruct", "Mistral 7B", "mistral", "Mistral AI", true, "Compact and efficient", 32768),
    Model("openrouter:mistralai/mixtral-8x7b-instruct", "Mixtral 8x7B", "mistral", "Mistral AI", false, "Mixture of experts", 32768)
  ]

  /** The Google entries, in catalog order. */
  const GoogleModels: seq<Model> := [
    Model("openrouter:google/gemini-2.5-flash-preview", "Gemini 2.5 Flash", "google", "Google", false, "Fast Gemini model", 128000),
    Model("openrouter:google/gemini-2.5-pro-preview", "Gemini 2.5 Pro", "google", "Google", false, "Advanced Gemini model", 128000),
    Model("openrouter:google/gemma-3-4b-it", "Gemma 3 4B", "google", "Google", true, "Smaller Gemma model", 128000)
  ]

  /** The Qwen entries, in catalog order. */
  const QwenModels: seq<Model> := [
    Model("openrouter:qwen/qwen-2.5-72b-instruct", "Qwen 2.5 72B", "qwen", "Qwen", false, "Large Qwen model", 32768),
    Model("openrouter:qwen/qwen-2.5-7b-instruct", "Qwen 2.5 7B", "qwen", "Qwen", true, "Smaller Qwen model", 32768)
  ]

  /** The Microsoft entries, in catalog order. */
  const MicrosoftModels: seq<Model> := [
    Model("openrouter:microsoft/phi-3-mini-128k-instruct", "Phi-3 Mini", "microsoft", "Microsoft", true, "Compact Phi model", 128000)
  ]

  /** The DeepSeek entries, in catalog order. */
  const DeepSeekModels: seq<Model> := [
    Model("openrouter:deepseek/deepseek-chat-v3-0324", "DeepSeek Chat v3", "deepseek", "DeepSeek", false, "General purpose chat", 32768),
    Model("openrouter:deepseek/deepseek-coder", "DeepSeek Coder", "deepseek", "DeepSeek", false, "Code specialized", 32768)
  ]

  /** The free-category entries, in catalog order. */
  const FreeModels: seq<Model> := [
    Model("openrouter:meta-llama/llama-3.1-8b-instruct:free", "Llama 3.1 8B (Free)", "free", "Meta", true, "Free Llama model", 128000),
    Model("openrouter:mistralai/mistral-7b-instruct:free", "Mistral 7B (Free)", "free", "Mistral AI", true, "Free Mistral model", 32768),
    Model("openrouter:google/gemma-3-4b-it:free", "Gemma 3 4B (Free)", "free", "Google", true, "Free Gemma model", 128000),
    Model("openrouter:qwen/qwen-2.5-7b-instruct:free", "Qwen 2.5 7B (Free)", "free", "Qwen", true, "Free Qwen model", 32768),
    Model("openrouter:microsoft/phi-3-mini-128k-instruct:free", "Phi-3 Mini (Free)", "free", "Microsoft", true, "Free Phi model", 128000)
  ]

  /** The catalog's vendor groups, in the order the catalog lists them. */
  const VendorGroups: seq<seq<Model>> := [
    OpenAIModels, AnthropicModels, MetaModels, MistralModels, GoogleModels,
    QwenModels, MicrosoftModels, DeepSeekModels, FreeModels
  ]

  /** The category shared by the entries of each vendor group, in the same order. */
  const VendorCategories: seq<string> :=
    ["openai", "anthropic", "meta", "mistral", "google", "qwen", "microsoft", "deepseek", "free"]

  /** The groups one after the other. */
  function Flatten(groups: seq<seq<Model>>): (r: seq<Model>)
    ensures forall m | m in r :: exists g | 0 <= g < |groups| :: m in groups[g]
  {
    if groups == [] then [] else groups[0] + Flatten(groups[1..])
  }

  /** `allModels`: the whole catalog, in display order. */
  const AllModels: seq<Model> := Flatten(VendorGroups)

  /** The common prefix of every model identifier. */
  const IdPrefix := "openrouter:"

  /** The suffix of every free-category identifier. */
  const FreeSuffix := ":free"

  predicate EndsWith(s: string, suffix: string) {
    |suffix| <= |s| && forall k | 0 <= k < |suffix| :: s[|s| - |suffix| + k] == suffix[k]
  }

  /** No two positions of `s` hold the same identifier. */
  ghost predicate IdsDistinct(s: seq<Model>) {
    forall i, j | 0 <= i < j < |s| :: s[i].id != s[j].id
  }

  /** No identifier of `a` is an identifier of `b`. */
  ghost predicate IdsDisjoint(a: seq<Model>, b: seq<Model>) {
    forall i, j | 0 <= i < |a| && 0 <= j < |b| :: a[i].id != b[j].id
  }

  lemma DisjointConcat(a: seq<Model>, b: seq<Model>, c: seq<Model>)
    requires IdsDisjoint(a, b) && IdsDisjoint(a, c)
    ensures IdsDisjoint(a, b + c)
  {
    forall i, j | 0 <= i < |a| && 0 <= j < |b + c| ensures a[i].id != (b + c)[j].id {
      if j < |b| { assert (b + c)[j] == b[j]; } else { assert (b + c)[j] == c[j - |b|]; }
    }
  }

  lemma DistinctConcat(a: seq<Model>, b: seq<Model>)
    requires IdsDistinct(a) && IdsDistinct(b) && IdsDisjoint(a, b)
    ensures IdsDistinct(a + b)
  {
    forall i, j | 0 <= i < j < |a + b| ensures (a + b)[i].id != (a + b)[j].id {
      if j < |a| {
        assert (a + b)[i] == a[i] && (a + b)[j] == a[j];
      } else if i < |a| {
        assert (a + b)[i] == a[i] && (a + b)[j] == b[j - |a|];
      } else {
        assert (a + b)[i] == b[i - |a|] && (a + b)[j] == b[j - |a|];
      }
    }
  }

  /** A list disjoint from every group is disjoint from their concatenation. */
  lemma {:induction false} DisjointFlatten(a: seq<Model>, groups: seq<seq<Model>>)
    requires forall h | 0 <= h < |groups| :: IdsDisjoint(a, groups[h])
    ensures IdsDisjoint(a, Flatten(groups))
  {
    if groups != [] {
      DisjointFlatten(a, groups[1..]);
      DisjointConcat(a, groups[0], Flatten(groups[1..]));
    }
  }

  /** Groups that are each id-distinct and pairwise id-disjoint concatenate to an id-distinct list. */
  lemma {:induction false} DistinctFlatten(groups: seq<seq<Model>>)
    requires forall g | 0 <= g < |groups| :: IdsDistinct(groups[g])
    requires forall g, h | 0 <= g < h < |groups| :: IdsDisjoint(groups[g], groups[h])
    ensures IdsDistinct(Flatten(groups))
  {
    if groups != [] {
      var rest := groups[1..];
      forall h | 0 <= h < |rest| ensures IdsDisjoint(groups[0], rest[h]) {
        assert rest[h] == groups[h + 1];
      }
      DisjointFlatten(groups[0], rest);
      DistinctFlatten(rest);
      DistinctConcat(groups[0], Flatten(rest));
    }
  }

  /** Every entry of every group is an entry of their concatenation. */
  lemma {:induction false} InFlatten(groups: seq<seq<Model>>, g: nat, i: nat)
    requires g < |groups| && i < |groups[g]|
    ensures groups[g][i] in Flatten(groups)
  {
    if g > 0 {
      InFlatten(groups[1..], g - 1, i);
    }
  }

  /** A property of every entry of every group is a property of every entry of their concatenation. */
  lemma {:induction false} EveryFlatten(groups: seq<seq<Model>>, P: Model -> bool)
    requires forall g, i | 0 <= g < |groups| && 0 <= i < |groups[g]| :: P(groups[g][i])
    ensures forall m | m in Flatten(groups) :: P(m)
  {
    if groups != [] {
      EveryFlatten(groups[1..], P);
      forall m | m in Flatten(groups) ensures P(m) {
        if m in groups[0] {
          var i :| 0 <= i < |groups[0]| && groups[0][i] == m;
        } else {
          assert m in Flatten(groups[1..]);
        }
      }
    }
  }

  // The solver compares literal identifiers one pair at a time, so the facts about the
  // literal entries are split into blocks that each stay small.

  lemma OpenAIIdsDistinct1()
    ensures forall i, j | 0 <= i < 3 && i < j < |OpenAIModels| :: OpenAIModels[i].id != OpenAIModels[j].id
  {
  }

  lemma OpenAIIdsDistinct2()
    ensures forall i, j | 3 <= i < 6 && i < j < |OpenAIModels| :: OpenAIModels[i].id != OpenAIModels[j].id
  {
  }

  lemma OpenAIIdsDistinct3()
    ensures forall i, j | 6 <= i < 9 && i < j < |OpenAIModels| :: OpenAIModels[i].id != OpenAIModels[j].id
  {
  }

  lemma OpenAIIdsDistinct4()
    ensures forall i, j | 9 <= i < 12 && i < j < |OpenAIModels| :: OpenAIModels[i].id != OpenAIModels[j].id
  {
  }

  lemma OpenAIIdsDistinct5()
    ensures forall i, j | 12 <= i < 16 && i < j < |OpenAIModels| :: OpenAIModels[i].id != OpenAIModels[j].id
  {
  }

  lemma OpenAIIdsDistinct6()
    ensures forall i, j | 16 <= i < 20 && i < j < |OpenAIModels| :: OpenAIModels[i].id != OpenAIModels[j].id
  {
  }

  lemma OpenAIIdsDistinct7()
    ensures forall i, j | 20 <= i < 29 && i < j < |OpenAIModels| :: OpenAIModels[i].id != OpenAIModels[j].id
  {
  }

  lemma SmallGroupsIdsDistinct()
    ensures forall i, j | 0 <= i < j < |AnthropicModels| :: AnthropicModels[i].id != AnthropicModels[j].id
    ensures forall i, j | 0 <= i < j < |MetaModels| :: MetaModels[i].id != MetaModels[j].id
    ensures forall i, j | 0 <= i < j < |MistralModels| :: MistralModels[i].id != MistralModels[j].id
    ensures forall i, j | 0 <= i < j < |GoogleModels| :: GoogleModels[i].id != GoogleModels[j].id
    ensures forall i, j | 0 <= i < j < |QwenModels| :: QwenModels[i].id != QwenModels[j].id
    ensures forall i, j | 0 <= i < j < |DeepSeekModels| :: DeepSeekModels[i].id != DeepSeekModels[j].id
    ensures forall i, j | 0 <= i < j < |FreeModels| :: FreeModels[i].id != FreeModels[j].id
  {
  }

  lemma OpenAIDisjointFromAnthropic()
    ensures forall i, j | 0 <= i < |OpenAIModels| && 0 <= j < |AnthropicModels| :: OpenAIModels[i].id != AnthropicModels[j].id
  {
  }

  lemma OpenAIDisjointFromMeta()
    ensures forall i, j | 0 <= i < |OpenAIModels| && 0 <= j < |MetaModels| :: OpenAIModels[i].id != MetaModels[j].id
  {
  }

  lemma OpenAIDisjointFromMistral()
    ensures forall i, j | 0 <= i < |OpenAIModels| && 0 <= j < |MistralModels| :: OpenAIModels[i].id != MistralModels[j].id
  {
  }

  lemma OpenAIDisjointFromGoogle()
    ensures forall i, j | 0 <= i < |OpenAIModels| && 0 <= j < |GoogleModels| :: OpenAIModels[i].id != GoogleModels[j].id
  {
  }

  lemma OpenAIDisjointFromQwen()
    ensures forall i, j | 0 <= i < |OpenAIModels| && 0 <= j < |QwenModels| :: OpenAIModels[i].id != QwenModels[j].id
  {
  }

  lemma OpenAIDisjointFromMicrosoft()
    ensures forall i, j | 0 <= i < |OpenAIModels| && 0 <= j < |MicrosoftModels| :: OpenAIModels[i].id != MicrosoftModels[j].id
  {
  }

  lemma OpenAIDisjointFromDeepSeek()
    ensures forall i, j | 0 <= i < |OpenAIModels| && 0 <= j < |DeepSeekModels| :: OpenAIModels[i].id != DeepSeekModels[j].id
  {
  }

  lemma OpenAIDisjointFromFree()
    ensures forall i, j | 0 <= i < |OpenAIModels| && 0 <= j < |FreeModels| :: OpenAIModels[i].id != FreeModels[j].id
  {
  }

  lemma SmallGroupsDisjoint1()
    ensures forall i, j | 0 <= i < |AnthropicModels| && 0 <= j < |MetaModels| :: AnthropicModels[i].id != MetaModels[j].id
    ensures forall i, j | 0 <= i < |AnthropicModels| && 0 <= j < |MistralModels| :: AnthropicModels[i].id != MistralModels[j].id
    ensures forall i, j | 0 <= i < |AnthropicModels| && 0 <= j < |GoogleModels| :: AnthropicModels[i].id != GoogleModels[j].id
    ensures forall i, j | 0 <= i < |AnthropicModels| && 0 <= j < |QwenModels| :: AnthropicModels[i].id != QwenModels[j].id
    ensures forall i, j | 0 <= i < |AnthropicModels| && 0 <= j < |MicrosoftModels| :: AnthropicModels[i].id != MicrosoftModels[j].id
    ensures forall i, j | 0 <= i < |AnthropicModels| && 0 <= j < |DeepSeekModels| :: AnthropicModels[i].id != DeepSeekModels[j].id
    ensures forall i, j | 0 <= i < |AnthropicModels| && 0 <= j < |FreeModels| :: AnthropicModels[i].id != FreeModels[j].id
    ensures forall i, j | 0 <= i < |MetaModels| && 0 <= j < |MistralModels| :: MetaModels[i].id != MistralModels[j].id
    ensures forall i, j | 0 <= i < |MetaModels| && 0 <= j < |GoogleModels| :: MetaModels[i].id != GoogleModels[j].id
    ensures forall i, j | 0 <= i < |MetaModels| && 0 <= j < |QwenModels| :: MetaModels[i].id != QwenModels[j].id
    ensures forall i, j | 0 <= i < |MetaModels| && 0 <= j < |MicrosoftModels| :: MetaModels[i].id != MicrosoftModels[j].id
    ensures forall i, j | 0 <= i < |MetaModels| && 0 <= j < |DeepSeekModels| :: MetaModels[i].id != DeepSeekModels[j].id
    ensures forall i, j | 0 <= i < |MetaModels| && 0 <= j < |FreeModels| :: MetaModels[i].id != FreeModels[j].id
    ensures forall i, j | 0 <= i < |MistralModels| && 0 <= j < |GoogleModels| :: MistralModels[i].id != GoogleModels[j].id
  {
  }

  lemma SmallGroupsDisjoint2()
    ensures forall i, j | 0 <= i < |MistralModels| && 0 <= j < |QwenModels| :: MistralModels[i].id != QwenModels[j].id
    ensures forall i, j | 0 <= i < |MistralModels| && 0 <= j < |MicrosoftModels| :: MistralModels[i].id != MicrosoftModels[j].id
    ensures forall i, j | 0 <= i < |MistralModels| && 0 <= j < |DeepSeekModels| :: MistralModels[i].id != DeepSeekModels[j].id
    ensures forall i, j | 0 <= i < |MistralModels| && 0 <= j < |FreeModels| :: MistralModels[i].id != FreeModels[j].id
    ensures forall i, j | 0 <= i < |GoogleModels| && 0 <= j < |QwenModels| :: GoogleModels[i].id != QwenModels[j].id
    ensures forall i, j | 0 <= i < |GoogleModels| && 0 <= j < |MicrosoftModels| :: GoogleModels[i].id != MicrosoftModels[j].id
    ensures forall i, j | 0 <= i < |GoogleModels| && 0 <= j < |DeepSeekModels| :: GoogleModels[i].id != DeepSeekModels[j].id
    ensures forall i, j | 0 <= i < |GoogleModels| && 0 <= j < |FreeModels| :: GoogleModels[i].id != FreeModels[j].id
    ensures forall i, j | 0 <= i < |QwenModels| && 0 <= j < |MicrosoftModels| :: QwenModels[i].id != MicrosoftModels[j].id
    ensures forall i, j | 0 <= i < |QwenModels| && 0 <= j < |DeepSeekModels| :: QwenModels[i].id != DeepSeekModels[j].id
    ensures forall i, j | 0 <= i < |QwenModels| && 0 <= j < |FreeModels| :: QwenModels[i].id != FreeModels[j].id
    ensures forall i, j | 0 <= i < |MicrosoftModels| && 0 <= j < |DeepSeekModels| :: MicrosoftModels[i].id != DeepSeekModels[j].id
    ensures forall i, j | 0 <= i < |MicrosoftModels| && 0 <= j < |FreeModels| :: MicrosoftModels[i].id != FreeModels[j].id
    ensures forall i, j | 0 <= i < |DeepSeekModels| && 0 <= j < |FreeModels| :: DeepSeekModels[i].id != FreeModels[j].id
  {
  }

  lemma OpenAIPrefixed1()
    ensures forall i | 0 <= i < 10 :: IdPrefix <= OpenAIModels[i].id
  {
  }

  lemma OpenAIPrefixed2()
    ensures forall i | 10 <= i < 20 :: IdPrefix <= OpenAIModels[i].id
  {
  }

  lemma OpenAIPrefixed3()
    ensures forall i | 20 <= i < 29 :: IdPrefix <= OpenAIModels[i].id
  {
  }

  lemma OpenAILimits()
    ensures forall i | 0 <= i < |OpenAIModels| :: 4000 <= OpenAIModels[i].contextLimit <= 1050000
  {
  }

  lemma OpenAICategory()
    ensures forall i | 0 <= i < |OpenAIModels| :: OpenAIModels[i].category == "openai"
  {
  }

  lemma AnthropicPrefixed()
    ensures forall i | 0 <= i < |AnthropicModels| :: IdPrefix <= AnthropicModels[i].id
  {
  }

  lemma AnthropicFields()
    ensures forall i | 0 <= i < |AnthropicModels| :: 4000 <= AnthropicModels[i].contextLimit <= 1050000
    ensures forall i | 0 <= i < |AnthropicModels| :: AnthropicModels[i].category == "anthropic"
  {
  }

  lemma MetaPrefixed()
    ensures forall i | 0 <= i < |MetaModels| :: IdPrefix <= MetaModels[i].id
  {
  }

  lemma MetaFields()
    ensures forall i | 0 <= i < |MetaModels| :: 4000 <= MetaModels[i].contextLimit <= 1050000
    ensures forall i | 0 <= i < |MetaModels| :: MetaModels[i].category == "meta"
  {
  }

  lemma MistralPrefixed()
    ensures forall i | 0 <= i < |MistralModels| :: IdPrefix <= MistralModels[i].id
  {
  }

  lemma MistralFields()
    ensures forall i | 0 <= i < |MistralModels| :: 4000 <= MistralModels[i].contextLimit <= 1050000
    ensures forall i | 0 <= i < |MistralModels| :: MistralModels[i].category == "mistral"
  {
  }

  lemma GooglePrefixed()
    ensures forall i | 0 <= i < |GoogleModels| :: IdPrefix <= GoogleModels[i].id
  {
  }

  lemma GoogleFields()
    ensures forall i | 0 <= i < |GoogleModels| :: 4000 <= GoogleModels[i].contextLimit <= 1050000
    ensures forall i | 0 <= i < |GoogleModels| :: GoogleModels[i].category == "google"
  {
  }

  lemma QwenPrefixed()
    ensures forall i | 0 <= i < |QwenModels| :: IdPrefix <= QwenModels[i].id
  {
  }

  lemma QwenFields()
    ensures forall i | 0 <= i < |QwenModels| :: 4000 <= QwenModels[i].contextLimit <= 1050000
    ensures forall i | 0 <= i < |QwenModels| :: QwenModels[i].category == "qwen"
  {
  }

  lemma MicrosoftPrefixed()
    ensures forall i | 0 <= i < |MicrosoftModels| :: IdPrefix <= MicrosoftModels[i].id
  {
  }

  lemma MicrosoftFields()
    ensures forall i | 0 <= i < |MicrosoftModels| :: 4000 <= MicrosoftModels[i].contextLimit <= 1050000
    ensures forall i | 0 <= i < |MicrosoftModels| :: MicrosoftModels[i].category == "microsoft"
  {
  }

  lemma DeepSeekPrefixed()
    ensures forall i | 0 <= i < |DeepSeekModels| :: IdPrefix <= DeepSeekModels[i].id
  {
  }

  lemma DeepSeekFields()
    ensures forall i | 0 <= i < |DeepSeekModels| :: 4000 <= DeepSeekModels[i].contextLimit <= 1050000
    ensures forall i | 0 <= i < |DeepSeekModels| :: DeepSeekModels[i].category == "deepseek"
  {
  }

  lemma FreePrefixed()
    ensures forall i | 0 <= i < |FreeModels| :: IdPrefix <= FreeModels[i].id
  {
  }

  lemma FreeFields()
    ensures forall i | 0 <= i < |FreeModels| :: 4000 <= FreeModels[i].contextLimit <= 1050000
    ensures forall i | 0 <= i < |FreeModels| :: FreeModels[i].category == "free"
  {
  }

  lemma FreeMarked()
    ensures forall i | 0 <= i < |FreeModels| :: FreeModels[i].isFree && EndsWith(FreeModels[i].id, FreeSuffix)
  {
  }

  /** Each vendor group lists distinct identifiers. */
  lemma GroupsIdsDistinct()
    ensures forall g | 0 <= g < |VendorGroups| :: IdsDistinct(VendorGroups[g])
  {
    OpenAIIdsDistinct1(); OpenAIIdsDistinct2(); OpenAIIdsDistinct3(); OpenAIIdsDistinct4();
    OpenAIIdsDistinct5(); OpenAIIdsDistinct6(); OpenAIIdsDistinct7(); SmallGroupsIdsDistinct();
  }

  /** No two vendor groups share an identifier. */
  lemma GroupsIdsDisjoint()
    ensures forall g, h | 0 <= g < h < |VendorGroups| :: IdsDisjoint(VendorGroups[g], VendorGroups[h])
  {
    OpenAIDisjointFromAnthropic(); OpenAIDisjointFromMeta(); OpenAIDisjointFromMistral();
    OpenAIDisjointFromGoogle(); OpenAIDisjointFromQwen(); OpenAIDisjointFromMicrosoft();
    OpenAIDisjointFromDeepSeek(); OpenAIDisjointFromFree();
    SmallGroupsDisjoint1(); SmallGroupsDisjoint2();
  }

  /** All identifiers in the catalog are pairwise distinct: an identifier names at most one entry. */
  lemma CatalogIdsDistinct()
    ensures IdsDistinct(AllModels)
  {
    GroupsIdsDistinct();
    GroupsIdsDisjoint();
    DistinctFlatten(VendorGroups);
  }

  /** Every identifier starts with `openrouter:`. */
  lemma CatalogIdsPrefixed()
    ensures forall m | m in AllModels :: IdPrefix <= m.id
  {
    OpenAIPrefixed1(); OpenAIPrefixed2(); OpenAIPrefixed3(); AnthropicPrefixed(); MetaPrefixed();
    MistralPrefixed(); GooglePrefixed(); QwenPrefixed(); MicrosoftPrefixed(); DeepSeekPrefixed();
    FreePrefixed();
    forall g, i | 0 <= g < |VendorGroups| && 0 <= i < |VendorGroups[g]|
      ensures IdPrefix <= VendorGroups[g][i].id
    {
      assert VendorGroups[g] == [OpenAIModels, AnthropicModels, MetaModels, MistralModels, GoogleModels,
        QwenModels, MicrosoftModels, DeepSeekModels, FreeModels][g];
    }
    EveryFlatten(VendorGroups, (m: Model) => IdPrefix <= m.id);
  }

  /** Every context limit lies between 4000 and 1050000 tokens; in particular it is positive. */
  lemma CatalogContextLimits()
    ensures forall m | m in AllModels :: 0 < 4000 <= m.contextLimit <= 1050000
  {
    OpenAILimits(); AnthropicFields(); MetaFields(); MistralFields(); GoogleFields(); QwenFields();
    MicrosoftFields(); DeepSeekFields(); FreeFields();
    forall g, i | 0 <= g < |VendorGroups| && 0 <= i < |VendorGroups[g]|
      ensures 4000 <= VendorGroups[g][i].contextLimit <= 1050000
    {
      assert VendorGroups[g] == [OpenAIModels, AnthropicModels, MetaModels, MistralModels, GoogleModels,
        QwenModels, MicrosoftModels, DeepSeekModels, FreeModels][g];
    }
    EveryFlatten(VendorGroups, (m: Model) => 4000 <= m.contextLimit <= 1050000);
  }

  /** Every entry's category is the category of one of the vendor groups. */
  lemma CatalogCategories()
    ensures forall m | m in AllModels :: m.category in VendorCategories
  {
    OpenAICategory(); AnthropicFields(); MetaFields(); MistralFields(); GoogleFields();
    QwenFields(); MicrosoftFields(); DeepSeekFields(); FreeFields();
    forall g, i | 0 <= g < |VendorGroups| && 0 <= i < |VendorGroups[g]|
      ensures VendorGroups[g][i].category in VendorCategories
    {
      assert VendorGroups[g] == [OpenAIModels, AnthropicModels, MetaModels, MistralModels, GoogleModels,
        QwenModels, MicrosoftModels, DeepSeekModels, FreeModels][g];
    }
    EveryFlatten(VendorGroups, (m: Model) => m.category in VendorCategories);
  }

  /** Every free-category entry is marked free and has an identifier ending in `:free`. */
  lemma CatalogFreeEntriesMarked()
    ensures forall m | m in AllModels && m.category == "free" :: m.isFree && EndsWith(m.id, FreeSuffix)
  {
    OpenAICategory(); AnthropicFields(); MetaFields(); MistralFields(); GoogleFields();
    QwenFields(); MicrosoftFields(); DeepSeekFields(); FreeFields();
    FreeMarked();
    forall g, i | 0 <= g < |VendorGroups| && 0 <= i < |VendorGroups[g]|
      ensures VendorGroups[g][i].category == "free" ==> VendorGroups[g][i].isFree && EndsWith(VendorGroups[g][i].id, FreeSuffix)
    {
      assert VendorGroups[g] == [OpenAIModels, AnthropicModels, MetaModels, MistralModels, GoogleModels,
        QwenModels, MicrosoftModels, DeepSeekModels, FreeModels][g];
    }
    EveryFlatten(VendorGroups, (m: Model) => m.category == "free" ==> m.isFree && EndsWith(m.id, FreeSuffix));
  }
}
