# Agent and Chroma option resolution, in Dafny

This project models the two configuration resolvers of a Go LLM-application
library. Both are built on the functional-options pattern.

* **Agent creation options** (`agents/options.go`). A `CreationOptions` record
  holds the settings an agent or executor is created from. It is seeded from one
  of four baselines: executor, MRKL, conversational or OpenAI functions. The
  caller's `With*` options are then applied to it in order. Two accessors derive
  the prompt. Each returns the caller's explicit prompt when its template is
  non-empty. Otherwise it synthesises one from prefix, format instructions,
  suffix and tools.
* **Chroma store options** (`vectorstores/chroma/options.go`). `applyClientOptions`
  seeds a store with the default namespace, namespace key and distance function,
  and with the API key from `OPENAI_API_KEY`. It applies the options in order and
  falls back to `CHROMA_URL` for an empty URL. It then fails with an
  `ErrInvalidOptions` error if the URL is still empty, or if there is neither an
  API key nor an embedder.

Layout:

* `wrappers.dfy`: `Option` (a nil handle is `None`) and `Result` (for Go's
  `(value, error)` return).
* `functional_options.dfy`: the pattern, stated once. `ApplyAll` is the
  `for _, opt := range opts { opt(o) }` loop. `FieldGranular` says that an option
  writes one field and nothing else. `Effective` is the reference definition: a
  field ends with the value of the last option that targets it, or with the
  baseline's value. Its lemmas are generic over the record and option types:
  `LastWriteWins`, order independence for options on distinct fields, and
  swapping adjacent options on different fields.
* `agent_options.dfy`: module `AgentOptions`.
* `chroma_options.dfy`: module `ChromaOptions`. The Go type `Option` is named
  `StoreOption` here, so that it does not clash with `Wrappers.Option`.

Each option is a constructor of a datatype named after its Go constructor.
`Apply` runs one option. `Get` reads a record one field at a time, so frame
conditions can be stated field by field.

Behaviours of the code worth knowing:

* A later `WithPrompt` whose template is empty replaces an earlier non-empty one,
  and the prompt is synthesised again (`AgentOptions.LaterEmptyPromptRestoresSynthesis`).
* `OPENAI_API_KEY` is read into the seed before the options run, so
  `WithOpenAiAPIKey("")` discards a key set in the environment
  (`ChromaOptions.EmptyExplicitKeyDiscardsEnvironmentKey`). `CHROMA_URL`, in
  contrast, is read only when the URL is still empty after the options.
* The doc comment of `WithOpenAiAPIKey` says that a missing key is an error.
  The code rejects a missing key only when no embedder is set either.

## Model

| member | source | states |
|---|---|---|
| `FunctionalOptions.ApplyAll` | vectorstores/chroma/options.go:79-81 | The `for _, opt := range opts { opt(o) }` loop: applies the options in list order. It has no contract of its own; `LastWriteWins` characterises it. |
| `AgentOptions.ZeroOptions` | agents/options.go:11-26 | Go's zero `CreationOptions{}`. It has no contract of its own; the four baselines are stated relative to it. |
| `AgentOptions.Baseline` | agents/options.go:32-63 | Selects the default set for an agent kind. Every baseline sets the default output key and leaves the explicit prompt template empty. |
| `ChromaOptions.Getenv` | vectorstores/chroma/options.go:76 | `os.Getenv` over the injected environment: the variable's value, or "" when it is unset. |
| `FunctionalOptions.LastWriter` | agents/options.go:28-30 | Returns the index of the last option that targets a field, with no later option targeting it. Returns none exactly when no option targets the field. |
| `FunctionalOptions.ApplyAllAppend` | vectorstores/chroma/options.go:79-81 | Applying one list of options and then another is the same as applying their concatenation. |
| `FunctionalOptions.LastWriteWins` | vectorstores/chroma/options.go:79-81 | For any field-granular option type, the fold leaves every field with the value of its last writer, or with the baseline's value when nothing writes it. |
| `FunctionalOptions.Untouched` | vectorstores/chroma/options.go:79-81 | A field that no option targets keeps its baseline value. |
| `FunctionalOptions.DistinctWriter` | agents/options.go:28-30 | In a list whose options target distinct fields, the option that targets a field is that field's last writer. |
| `FunctionalOptions.SameMembersSameEffect` | agents/options.go:28-30 | Two lists with the same members, each with distinct targets, give every field the same final value. |
| `FunctionalOptions.OrderIrrelevant` | agents/options.go:93-180 | Options on pairwise distinct fields give the same record in any order. |
| `FunctionalOptions.SwapDisjoint` | agents/options.go:93-180 | Swapping two adjacent options on different fields, anywhere in a list, changes no field. |
| `AgentOptions.Extensionality` | agents/options.go:11-26 | Two `CreationOptions` records that agree on all twelve fields are equal. |
| `AgentOptions.ExecutorDefaults` | agents/options.go:32-38 | Sets the default iteration bound, the default output key and a simple memory. Every other field keeps its Go zero value. |
| `AgentOptions.MrklDefaults` | agents/options.go:40-47 | Sets the MRKL prefix, format instructions and suffix, and the default output key. Every other field is zero. |
| `AgentOptions.ConversationalDefaults` | agents/options.go:49-56 | Sets the conversational prefix, format instructions and suffix, and the default output key. Every other field is zero. |
| `AgentOptions.OpenAIFunctionsDefaults` | agents/options.go:58-63 | Sets the system message "You are a helpful AI assistant." and the default output key. Every other field is zero. |
| `AgentOptions.MrklAndConversationalDifferOnlyInPromptText` | agents/options.go:40-56 | The MRKL and conversational baselines agree on every field except prefix, format instructions and suffix. Both use the default output key. |
| `AgentOptions.Apply` | agents/options.go:93-180 | Each `With*` option writes its named field with its argument, or `true` for `WithReturnIntermediateSteps`. It leaves every other field unchanged. |
| `AgentOptions.ApplyIsFieldGranular` | agents/options.go:93-180 | The agent options meet the generic field-granularity condition. |
| `AgentOptions.DisjointOptionsCommute` | agents/options.go:93-180 | Two options on different fields commute. |
| `AgentOptions.LaterOptionOverrides` | agents/options.go:93-97 | Of two options on the same field, the later one wins and the earlier one has no effect. |
| `AgentOptions.ReturnIntermediateStepsIdempotent` | agents/options.go:137-141 | `WithReturnIntermediateSteps` sets the flag to true. Applying it twice is the same as applying it once. |
| `AgentOptions.Resolve` | agents/options.go:28-30 | The resolved record holds, in every field, the value of the last option that targets it, or the baseline's value. |
| `AgentOptions.MaxIterationsLastWins` | agents/options.go:93-97 | `WithMaxIterations(x)` followed by `WithMaxIterations(y)` leaves the bound at `y`. |
| `AgentOptions.UntargetedFieldsKeepBaseline` | agents/options.go:93-180 | A field that no option in the list targets keeps its baseline value. |
| `AgentOptions.DisjointOptionsOrderIrrelevant` | agents/options.go:93-180 | Option lists with pairwise distinct targets and the same members resolve to the same record. |
| `AgentOptions.AdjacentDisjointSwap` | agents/options.go:93-180 | Swapping adjacent options on different fields does not change the resolved record. |
| `AgentOptions.GetMrklPrompt` | agents/options.go:65-76 | A non-empty explicit template is returned unchanged. Otherwise the result is the MRKL prompt built from tools, prefix, format instructions and suffix. |
| `AgentOptions.GetConversationalPrompt` | agents/options.go:78-89 | The same two cases, with the conversational prompt builder. |
| `AgentOptions.ExplicitPromptIgnoresScaffolding` | agents/options.go:65-68 | With a non-empty template, both accessors ignore the prefix, format instructions, suffix and tools. |
| `AgentOptions.LastExplicitPromptWins` | agents/options.go:129-133 | If the last `WithPrompt` in the list has a non-empty template, both accessors return that prompt, whatever the other options are. |
| `AgentOptions.PromptSynthesisedWithoutExplicitPrompt` | agents/options.go:70-75 | Without any `WithPrompt`, both accessors synthesise the prompt from the resolved prefix, format instructions and suffix, because no baseline sets a prompt. |
| `AgentOptions.LaterEmptyPromptRestoresSynthesis` | agents/options.go:65-75 | If the last `WithPrompt` in the list has an empty template, both accessors synthesise the prompt from the resolved scaffolding, even when an earlier `WithPrompt` was non-empty. |
| `ChromaOptions.Extensionality` | vectorstores/chroma/options.go:72-77 | Two stores that agree on all seven modelled fields are equal. |
| `ChromaOptions.Target` | vectorstores/chroma/options.go:26-69 | No option targets the namespace key. |
| `ChromaOptions.Apply` | vectorstores/chroma/options.go:26-69 | Each store option writes its named field with its argument and leaves every other field unchanged. |
| `ChromaOptions.ApplyIsFieldGranular` | vectorstores/chroma/options.go:26-69 | The store options meet the generic field-granularity condition. |
| `ChromaOptions.Seed` | vectorstores/chroma/options.go:12-18 | The seed has namespace "langchain", namespace key "nameSpace", distance function L2, and the API key from `OPENAI_API_KEY`. Its URL, embedder and includes are empty. |
| `ChromaOptions.Configure` | vectorstores/chroma/options.go:72-81 | After the options, every field holds its last writer's value or the seed's value. The namespace key is always "nameSpace". |
| `ChromaOptions.ApplyClientOptions` | vectorstores/chroma/options.go:71-98 | Fails with the missing-URL error exactly when the URL is empty after the `CHROMA_URL` fallback, whatever the credentials. Otherwise fails with the missing-credentials error exactly when there is no key and no embedder. On success it returns the configured store with the resolved URL, which is non-empty and has a key or an embedder. |
| `ChromaOptions.NoOptionsGiveSeed` | vectorstores/chroma/options.go:72-81 | With no options, the configured store is the seed. |
| `ChromaOptions.ExplicitAPIKeyOverridesEnvironment` | vectorstores/chroma/options.go:65-69 | The last `WithOpenAiAPIKey` sets the key, whatever `OPENAI_API_KEY` holds. |
| `ChromaOptions.EmptyExplicitKeyDiscardsEnvironmentKey` | vectorstores/chroma/options.go:76-95 | Example, an instance of `ApplyClientOptions`'s contract: an explicit empty key replaces a key set in the environment. With a URL and no embedder, resolution then fails on the credentials. |
| `ChromaOptions.ExplicitURLIgnoresEnvironment` | vectorstores/chroma/options.go:83-84 | When an option set a non-empty URL, `CHROMA_URL` does not affect the result. |
| `ChromaOptions.OnlyTwoVariablesConsulted` | vectorstores/chroma/options.go:76-84 | The result depends on the environment only through `OPENAI_API_KEY` and `CHROMA_URL`. |
| `ChromaOptions.NoURLAnywhereFails` | vectorstores/chroma/options.go:83-89 | With no URL option and `CHROMA_URL` unset, resolution fails with the missing-URL error. |
| `ChromaOptions.URLWithoutCredentialsFails` | vectorstores/chroma/options.go:92-95 | Example, an instance of `ApplyClientOptions`'s contract: a URL option with no key option, no embedder and `OPENAI_API_KEY` unset fails with the missing-credentials error. |
| `ChromaOptions.URLAndEnvironmentKeySucceed` | vectorstores/chroma/options.go:72-97 | Example, an instance of `ApplyClientOptions`'s contract: a URL option with `OPENAI_API_KEY` set succeeds. The store carries the URL, the environment's key, the default namespace and L2. |
| `ChromaOptions.DisjointOptionsOrderIrrelevant` | vectorstores/chroma/options.go:79-81 | Option lists with pairwise distinct targets and the same members give the same result. |

## Left out

* The azureaisearch request helpers (`ListIndexes`, `RetrieveIndex`) only format a URL and perform an HTTP round trip. That is network I/O, so they are not modelled.
* `createMRKLPrompt` and `createConversationalPrompt` are defined elsewhere in the package. They enter the accessors as a function parameter, and their output is not modelled.
* The values of `_defaultMaxIterations`, `_defaultOutputKey` and the MRKL and conversational prefix, format-instruction and suffix constants are defined elsewhere. They are constants of unspecified value here. As a result, nothing is proved about whether the MRKL and conversational texts actually differ.
* Memory, callback handlers, parser error handlers, message formatters and embedders are external interfaces. They are modelled as opaque identities, with nil as `None`. The `prompts.PromptTemplate` fields other than the template text and input variables are also left out.
* `Store` has more fields than the options write, such as the Chroma client and the collection. It is modelled with only the seven fields that `options.go` sets.
* A Go nil slice and an empty slice are both the empty sequence.
* `AgentOptions.ExecutorDefaults`: `memory.NewSimple()` builds a new memory object on every call. The model uses one `SimpleMemory` value, so it does not state that two executors get distinct memories. Memory identity and aliasing are not modelled.
* A nil option in the list panics when the loop calls it, in `applyClientOptions` and in the agent constructors alike. The option datatypes have no nil option, so that panic is not modelled.
* `WithIncludes` and `WithExtraMessages` keep the caller's slice by reference. A later change the caller makes to that slice shows up in the record. The model treats slices as values, so this aliasing is not modelled.
* `ChromaOptions.ApplyClientOptions`: on failure Go returns the zero `Store{}` alongside the error. Here the `Failure` carries no store. The error is modelled by which check failed, not by its formatted message text.
* `NewOpenAIOption` returns an empty struct and has no behaviour. Its two methods are the options `WithSystemMessage` and `WithExtraMessages`.
* The functions that fold agent options over a baseline (the agent and executor constructors) are defined elsewhere. `AgentOptions.Resolve` stands in for them: it applies the options in order to the baseline of the chosen kind.
