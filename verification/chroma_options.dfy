/**
 Option resolution for the Chroma vector store (vectorstores/chroma/options.go).

 `applyClientOptions` seeds a `Store` with defaults and the OpenAI API key from
 the environment, applies the caller's options in order, and falls back to the
 environment for the Chroma URL. It then fails with an error that wraps
 `ErrInvalidOptions` when the URL is still empty, or when there is neither an
 API key nor an embedder.

 The process environment enters as a map: `os.Getenv` of a missing variable
 reads as the empty string. The embedder, an `embeddings.Embedder` interface,
 is an opaque handle; nil is `None`.
 */
module ChromaOptions {
  import opened Wrappers
  import opened FunctionalOptions

  const OpenAiAPIKeyEnvVarName: string := "OPENAI_API_KEY"
  const ChromaURLKeyEnvVarName: string := "CHROMA_URL"
  const DefaultNameSpace: string := "langchain"
  const DefaultNameSpaceKey: string := "nameSpace"
  const DefaultDistanceFunc: DistanceFunction := L2

  /** Chroma's distance functions, as named by the Chroma client library. */
  datatype DistanceFunction = L2 | Cosine | IP

  /** What a Chroma query may return besides ids. */
  datatype QueryEnum = Documents | Embeddings | Metadatas | Distances

  /** An `embeddings.Embedder` handle. */
  datatype Embedder = Embedder(id: nat)

  /** The process environment: variable name to value. */
  type Environment = map<string, string>

  /** `os.Getenv`: the variable's value, or "" when it is unset. */
  function Getenv(env: Environment, name: string): (r: string)
    ensures name !in env ==> r == ""
    ensures name in env ==> r == env[name]
  {
    if name in env then env[name] else ""
  }

  /** The fields of the store that its options and `applyClientOptions` set. */
  datatype Store = Store(
    nameSpace: string,
    nameSpaceKey: string,
    chromaURL: string,
    embedder: Option<Embedder>,
    distanceFunction: DistanceFunction,
    includes: seq<QueryEnum>,
    openaiAPIKey: string)

  /** Which of the two checks of `applyClientOptions` failed; both wrap `ErrInvalidOptions`. */
  datatype InvalidOptions = MissingChromaURL | MissingEmbedderOrAPIKey

  // ---------------------------------------------------------------------------
  // Field-by-field view of a store
  // ---------------------------------------------------------------------------

  datatype Field =
    | NameSpaceField | NameSpaceKeyField | ChromaURLField | EmbedderField
    | DistanceFunctionField | IncludesField | OpenAIAPIKeyField

  datatype FieldValue =
    | TextValue(text: string)
    | EmbedderValue(embedder: Option<Embedder>)
    | DistanceValue(distance: DistanceFunction)
    | IncludesValue(includes: seq<QueryEnum>)

  function Get(s: Store, f: Field): FieldValue
  {
    match f
    case NameSpaceField => TextValue(s.nameSpace)
    case NameSpaceKeyField => TextValue(s.nameSpaceKey)
    case ChromaURLField => TextValue(s.chromaURL)
    case EmbedderField => EmbedderValue(s.embedder)
    case DistanceFunctionField => DistanceValue(s.distanceFunction)
    case IncludesField => IncludesValue(s.includes)
    case OpenAIAPIKeyField => TextValue(s.openaiAPIKey)
  }

  /** Two stores that agree on every field are the same store. */
  lemma Extensionality(a: Store, b: Store)
    requires forall f :: Get(a, f) == Get(b, f)
    ensures a == b
  {
    assert Get(a, NameSpaceField) == Get(b, NameSpaceField);
    assert Get(a, NameSpaceKeyField) == Get(b, NameSpaceKeyField);
    assert Get(a, ChromaURLField) == Get(b, ChromaURLField);
    assert Get(a, EmbedderField) == Get(b, EmbedderField);
    assert Get(a, DistanceFunctionField) == Get(b, DistanceFunctionField);
    assert Get(a, IncludesField) == Get(b, IncludesField);
    assert Get(a, OpenAIAPIKeyField) == Get(b, OpenAIAPIKeyField);
  }

  // ---------------------------------------------------------------------------
  // Options
  // ---------------------------------------------------------------------------

  /** One store `Option` of the Go package, named after the Go constructor that builds it. */
  datatype StoreOption =
    | WithNameSpace(nameSpace: string)
    | WithChromaURL(chromaURL: string)
    | WithEmbedder(embedder: Option<Embedder>)
    | WithDistanceFunction(distanceFunction: DistanceFunction)
    | WithIncludes(includes: seq<QueryEnum>)
    | WithOpenAiAPIKey(openAiAPIKey: string)

  /** The field an option writes. No option writes the namespace key. */
  function Target(opt: StoreOption): (f: Field)
    ensures f != NameSpaceKeyField
  {
    match opt
    case WithNameSpace(_) => NameSpaceField
    case WithChromaURL(_) => ChromaURLField
    case WithEmbedder(_) => EmbedderField
    case WithDistanceFunction(_) => DistanceFunctionField
    case WithIncludes(_) => IncludesField
    case WithOpenAiAPIKey(_) => OpenAIAPIKeyField
  }

  /** The value an option writes into its field. */
  function Written(opt: StoreOption): FieldValue
  {
    match opt
    case WithNameSpace(s) => TextValue(s)
    case WithChromaURL(u) => TextValue(u)
    case WithEmbedder(e) => EmbedderValue(e)
    case WithDistanceFunction(d) => DistanceValue(d)
    case WithIncludes(qs) => IncludesValue(qs)
    case WithOpenAiAPIKey(k) => TextValue(k)
  }

  /** Runs one option's closure on a store: it writes its own field and no other. */
  function Apply(s: Store, opt: StoreOption): (r: Store)
    ensures Get(r, Target(opt)) == Written(opt)
    ensures forall f :: f != Target(opt) ==> Get(r, f) == Get(s, f)
  {
    match opt
    case WithNameSpace(n) => s.(nameSpace := n)
    case WithChromaURL(u) => s.(chromaURL := u)
    case WithEmbedder(e) => s.(embedder := e)
    case WithDistanceFunction(d) => s.(distanceFunction := d)
    case WithIncludes(qs) => s.(includes := qs)
    case WithOpenAiAPIKey(k) => s.(openaiAPIKey := k)
  }

  lemma ApplyIsFieldGranular()
    ensures FieldGranular(Apply, Target, Get, Written)
  {
  }

  // ---------------------------------------------------------------------------
  // Resolution
  // ---------------------------------------------------------------------------

  /**
   The store `applyClientOptions` starts from: default namespace, namespace key
   and distance function, and the API key read from the environment. Nothing
   else is set.
   */
  function Seed(env: Environment): (r: Store)
    ensures r.nameSpace == "langchain" && r.nameSpaceKey == "nameSpace"
    ensures r.distanceFunction == L2
    ensures r.openaiAPIKey == Getenv(env, "OPENAI_API_KEY")
    ensures r.chromaURL == "" && r.embedder.None? && r.includes == []
  {
    Store(DefaultNameSpace, DefaultNameSpaceKey, "", None, DefaultDistanceFunc, [],
          Getenv(env, OpenAiAPIKeyEnvVarName))
  }

  /** Reference definition: the value field `f` holds once the options have been applied to the seed. */
  function Configured(env: Environment, opts: seq<StoreOption>, f: Field): FieldValue
  {
    Effective(Target, Get, Written, Seed(env), opts, f)
  }

  /** The URL after the environment fallback: the configured one if non-empty, else `CHROMA_URL`. */
  function ResolvedURL(env: Environment, opts: seq<StoreOption>): string
  {
    var url := Configured(env, opts, ChromaURLField).text;
    if url != "" then url else Getenv(env, ChromaURLKeyEnvVarName)
  }

  /** True when neither an API key nor an embedder is configured. */
  predicate MissingCredentials(env: Environment, opts: seq<StoreOption>)
  {
    Configured(env, opts, OpenAIAPIKeyField) == TextValue("")
    && Configured(env, opts, EmbedderField) == EmbedderValue(None)
  }

  /** The options applied to the seed, in order, as the `for` loop does. */
  function Configure(env: Environment, opts: seq<StoreOption>): (r: Store)
    ensures forall f :: Get(r, f) == Configured(env, opts, f)
    ensures r.nameSpaceKey == DefaultNameSpaceKey
  {
    ApplyIsFieldGranular();
    var r := ApplyAll(Apply, Seed(env), opts);
    assert forall f :: Get(r, f) == Configured(env, opts, f) by {
      forall f
        ensures Get(r, f) == Configured(env, opts, f)
      {
        LastWriteWins(Apply, Target, Get, Written, Seed(env), opts, f);
      }
    }
    assert Get(r, NameSpaceKeyField) == Get(Seed(env), NameSpaceKeyField);
    r
  }

  /**
   `applyClientOptions`. The URL check comes first; the store returned on
   success is the configured one with the URL fallback applied.
   */
  function ApplyClientOptions(env: Environment, opts: seq<StoreOption>): (r: Result<Store, InvalidOptions>)
    ensures r.Failure? <==> ResolvedURL(env, opts) == "" || MissingCredentials(env, opts)
    ensures ResolvedURL(env, opts) == "" ==> r == Failure(MissingChromaURL)
    ensures ResolvedURL(env, opts) != "" && MissingCredentials(env, opts) ==> r == Failure(MissingEmbedderOrAPIKey)
    ensures r.Success? ==> r.value.chromaURL == ResolvedURL(env, opts)
    ensures r.Success? ==> forall f :: f != ChromaURLField ==> Get(r.value, f) == Configured(env, opts, f)
    ensures r.Success? ==> r.value.chromaURL != "" && (r.value.openaiAPIKey != "" || r.value.embedder.Some?)
    ensures r.Success? ==> r.value.nameSpaceKey == DefaultNameSpaceKey
  {
    var o := Configure(env, opts);
    var o := if o.chromaURL == "" then o.(chromaURL := Getenv(env, ChromaURLKeyEnvVarName)) else o;
    if o.chromaURL == "" then
      Failure(MissingChromaURL)
    else if o.openaiAPIKey == "" && o.embedder == None then
      Failure(MissingEmbedderOrAPIKey)
    else
      Success(o)
  }

  // ---------------------------------------------------------------------------
  // Properties
  // ---------------------------------------------------------------------------

  /** With no options, the configured store is exactly the seed. */
  lemma NoOptionsGiveSeed(env: Environment)
    ensures Configure(env, []) == Seed(env)
  {
  }

  /** An explicit `WithOpenAiAPIKey` that is the last key option overrides the environment's key. */
  lemma ExplicitAPIKeyOverridesEnvironment(env: Environment, opts: seq<StoreOption>, i: nat)
    requires i < |opts| && opts[i].WithOpenAiAPIKey?
    requires forall j :: i < j < |opts| ==> !opts[j].WithOpenAiAPIKey?
    ensures Configure(env, opts).openaiAPIKey == opts[i].openAiAPIKey
  {
    assert LastWriter(Target, opts, OpenAIAPIKeyField) == Some(i);
    assert Get(Configure(env, opts), OpenAIAPIKeyField) == TextValue(opts[i].openAiAPIKey);
  }

  /**
   The environment key is read before the options run, not as a fallback after
   them: an explicit empty key replaces a set `OPENAI_API_KEY`, and without an
   embedder the resolution then fails.
   */
  lemma EmptyExplicitKeyDiscardsEnvironmentKey(env: Environment, url: string)
    requires Getenv(env, OpenAiAPIKeyEnvVarName) != "" && url != ""
    ensures ApplyClientOptions(env, [WithChromaURL(url), WithOpenAiAPIKey("")]) == Failure(MissingEmbedderOrAPIKey)
  {
  }

  /** An option that set a non-empty URL is kept; `CHROMA_URL` is not consulted. */
  lemma ExplicitURLIgnoresEnvironment(env: Environment, env': Environment, opts: seq<StoreOption>)
    requires Configured(env, opts, ChromaURLField) != TextValue("")
    requires Getenv(env, OpenAiAPIKeyEnvVarName) == Getenv(env', OpenAiAPIKeyEnvVarName)
    ensures ApplyClientOptions(env, opts) == ApplyClientOptions(env', opts)
  {
  }

  /** The result depends on the environment only through `OPENAI_API_KEY` and `CHROMA_URL`. */
  lemma OnlyTwoVariablesConsulted(env: Environment, env': Environment, opts: seq<StoreOption>)
    requires Getenv(env, OpenAiAPIKeyEnvVarName) == Getenv(env', OpenAiAPIKeyEnvVarName)
    requires Getenv(env, ChromaURLKeyEnvVarName) == Getenv(env', ChromaURLKeyEnvVarName)
    ensures ApplyClientOptions(env, opts) == ApplyClientOptions(env', opts)
  {
  }

  /** With no URL option and `CHROMA_URL` unset, resolution fails on the URL, whatever else is set. */
  lemma NoURLAnywhereFails(env: Environment, opts: seq<StoreOption>)
    requires Getenv(env, ChromaURLKeyEnvVarName) == ""
    requires forall j :: 0 <= j < |opts| ==> !opts[j].WithChromaURL?
    ensures ApplyClientOptions(env, opts) == Failure(MissingChromaURL)
  {
  }

  /** A URL option with no embedder, no key option and `OPENAI_API_KEY` unset fails on the credentials. */
  lemma URLWithoutCredentialsFails(env: Environment, url: string)
    requires url != "" && Getenv(env, OpenAiAPIKeyEnvVarName) == ""
    ensures ApplyClientOptions(env, [WithChromaURL(url)]) == Failure(MissingEmbedderOrAPIKey)
  {
  }

  /** A URL option and `OPENAI_API_KEY` set are enough; the store carries the environment's key. */
  lemma URLAndEnvironmentKeySucceed(env: Environment, url: string)
    requires url != "" && Getenv(env, OpenAiAPIKeyEnvVarName) != ""
    ensures var r := ApplyClientOptions(env, [WithChromaURL(url)]);
      r.Success? && r.value.chromaURL == url && r.value.openaiAPIKey == Getenv(env, OpenAiAPIKeyEnvVarName)
      && r.value.nameSpace == DefaultNameSpace && r.value.distanceFunction == DefaultDistanceFunc
  {
    var opts := [WithChromaURL(url)];
    assert LastWriter(Target, opts, ChromaURLField) == Some(0);
    assert LastWriter(Target, opts, OpenAIAPIKeyField) == None;
    assert LastWriter(Target, opts, NameSpaceField) == None;
    assert LastWriter(Target, opts, DistanceFunctionField) == None;
    assert Get(Configure(env, opts), NameSpaceField) == TextValue(DefaultNameSpace);
    assert Get(Configure(env, opts), DistanceFunctionField) == DistanceValue(DefaultDistanceFunc);
  }

  /** Lists of options on pairwise different fields resolve the same whatever their order. */
  lemma DisjointOptionsOrderIrrelevant(env: Environment, opts: seq<StoreOption>, opts': seq<StoreOption>)
    requires DistinctTargets(Target, opts) && DistinctTargets(Target, opts')
    requires forall o :: o in opts <==> o in opts'
    ensures ApplyClientOptions(env, opts) == ApplyClientOptions(env, opts')
  {
    forall f
      ensures Get(Configure(env, opts), f) == Get(Configure(env, opts'), f)
    {
      SameMembersSameEffect(Target, Get, Written, Seed(env), opts, opts', f);
    }
    Extensionality(Configure(env, opts), Configure(env, opts'));
  }
}
