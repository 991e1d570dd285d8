/**
 Agent and executor creation options (agents/options.go).

 A `CreationOptions` record collects the settings an agent or an executor is
 built from. One of four kind-specific baselines seeds it, and the caller's
 options are then applied in order. Each option sets exactly one field, so a
 field's final value is its last writer's value, or the baseline's. Two
 accessors derive the prompt: the caller's explicit prompt when its template is
 non-empty, otherwise one synthesised from prefix, format instructions, suffix
 and tools.

 The handles the Go record holds (memory, callbacks handler, parser error
 handler, message formatters) are opaque here. A nil handle is `None`.
 */
module AgentOptions {
  import opened Wrappers
  import opened FunctionalOptions

  /** Go's `int` on a 64-bit platform; options store it, nothing computes with it. */
  newtype Int64 = x: int | -0x8000_0000_0000_0000 <= x < 0x8000_0000_0000_0000

  /** The parts of `prompts.PromptTemplate` the accessors look at. */
  datatype PromptTemplate = PromptTemplate(template: string, inputVariables: seq<string>)

  /** A tool the agent may call, as the prompt builders see it. */
  datatype Tool = Tool(name: string, description: string)

  /** A `schema.Memory`: the simple buffer `memory.NewSimple()` returns, or some caller-supplied memory. */
  datatype Memory = SimpleMemory | CallerMemory(id: nat)

  /** Opaque external handles. */
  datatype CallbacksHandler = CallbacksHandler(id: nat)
  datatype ParserErrorHandler = ParserErrorHandler(id: nat)
  datatype MessageFormatter = MessageFormatter(id: nat)

  /** The settings an agent or executor is created from. */
  datatype CreationOptions = CreationOptions(
    prompt: PromptTemplate,
    memory: Option<Memory>,
    callbacksHandler: Option<CallbacksHandler>,
    errorHandler: Option<ParserErrorHandler>,
    maxIterations: Int64,
    returnIntermediateSteps: bool,
    outputKey: string,
    promptPrefix: string,
    formatInstructions: string,
    promptSuffix: string,
    // OpenAI functions agent only
    systemMessage: string,
    extraMessages: seq<MessageFormatter>)

  /** Default values defined elsewhere in the package; their text is not part of this model. */
  const DefaultMaxIterations: Int64
  const DefaultOutputKey: string
  const DefaultMrklPrefix: string
  const DefaultMrklFormatInstructions: string
  const DefaultMrklSuffix: string
  const DefaultConversationalPrefix: string
  const DefaultConversationalFormatInstructions: string
  const DefaultConversationalSuffix: string

  /** The system message of the OpenAI functions baseline. */
  const DefaultSystemMessage: string := "You are a helpful AI assistant."

  // ---------------------------------------------------------------------------
  // Field-by-field view of a record
  // ---------------------------------------------------------------------------

  /** The fields of `CreationOptions`, one per struct member. */
  datatype Field =
    | PromptField | MemoryField | CallbacksHandlerField | ErrorHandlerField
    | MaxIterationsField | ReturnIntermediateStepsField | OutputKeyField
    | PromptPrefixField | FormatInstructionsField | PromptSuffixField
    | SystemMessageField | ExtraMessagesField

  /** The value held in one field, tagged by the field's type. */
  datatype FieldValue =
    | PromptValue(prompt: PromptTemplate)
    | MemoryValue(memory: Option<Memory>)
    | HandlerValue(handler: Option<CallbacksHandler>)
    | ErrorHandlerValue(errorHandler: Option<ParserErrorHandler>)
    | IntValue(int64: Int64)
    | BoolValue(flag: bool)
    | TextValue(text: string)
    | MessagesValue(messages: seq<MessageFormatter>)

  /** Reads one field. */
  function Get(co: CreationOptions, f: Field): FieldValue
  {
    match f
    case PromptField => PromptValue(co.prompt)
    case MemoryField => MemoryValue(co.memory)
    case CallbacksHandlerField => HandlerValue(co.callbacksHandler)
    case ErrorHandlerField => ErrorHandlerValue(co.errorHandler)
    case MaxIterationsField => IntValue(co.maxIterations)
    case ReturnIntermediateStepsField => BoolValue(co.returnIntermediateSteps)
    case OutputKeyField => TextValue(co.outputKey)
    case PromptPrefixField => TextValue(co.promptPrefix)
    case FormatInstructionsField => TextValue(co.formatInstructions)
    case PromptSuffixField => TextValue(co.promptSuffix)
    case SystemMessageField => TextValue(co.systemMessage)
    case ExtraMessagesField => MessagesValue(co.extraMessages)
  }

  /** Two records that agree on every field are the same record. */
  lemma Extensionality(a: CreationOptions, b: CreationOptions)
    requires forall f :: Get(a, f) == Get(b, f)
    ensures a == b
  {
    assert Get(a, PromptField) == Get(b, PromptField);
    assert Get(a, MemoryField) == Get(b, MemoryField);
    assert Get(a, CallbacksHandlerField) == Get(b, CallbacksHandlerField);
    assert Get(a, ErrorHandlerField) == Get(b, ErrorHandlerField);
    assert Get(a, MaxIterationsField) == Get(b, MaxIterationsField);
    assert Get(a, ReturnIntermediateStepsField) == Get(b, ReturnIntermediateStepsField);
    assert Get(a, OutputKeyField) == Get(b, OutputKeyField);
    assert Get(a, PromptPrefixField) == Get(b, PromptPrefixField);
    assert Get(a, FormatInstructionsField) == Get(b, FormatInstructionsField);
    assert Get(a, PromptSuffixField) == Get(b, PromptSuffixField);
    assert Get(a, SystemMessageField) == Get(b, SystemMessageField);
    assert Get(a, ExtraMessagesField) == Get(b, ExtraMessagesField);
  }

  // ---------------------------------------------------------------------------
  // Baselines
  // ---------------------------------------------------------------------------

  /** Go's zero `CreationOptions{}`: empty strings, nil handles, zero count, false flag. */
  function ZeroOptions(): CreationOptions
  {
    CreationOptions(PromptTemplate("", []), None, None, None, 0, false, "", "", "", "", "", [])
  }

  /** Executor baseline: default iteration bound and output key, and a simple memory. */
  function ExecutorDefaults(): (r: CreationOptions)
    ensures r.maxIterations == DefaultMaxIterations && r.outputKey == DefaultOutputKey
    ensures r.memory == Some(SimpleMemory)
    ensures forall f :: f !in {MaxIterationsField, OutputKeyField, MemoryField} ==> Get(r, f) == Get(ZeroOptions(), f)
  {
    ZeroOptions().(maxIterations := DefaultMaxIterations, outputKey := DefaultOutputKey, memory := Some(SimpleMemory))
  }

  /** MRKL (one-shot) agent baseline: MRKL prompt scaffolding and the default output key. */
  function MrklDefaults(): (r: CreationOptions)
    ensures r.promptPrefix == DefaultMrklPrefix && r.formatInstructions == DefaultMrklFormatInstructions
    ensures r.promptSuffix == DefaultMrklSuffix && r.outputKey == DefaultOutputKey
    ensures forall f :: f !in {PromptPrefixField, FormatInstructionsField, PromptSuffixField, OutputKeyField} ==>
      Get(r, f) == Get(ZeroOptions(), f)
  {
    ZeroOptions().(promptPrefix := DefaultMrklPrefix, formatInstructions := DefaultMrklFormatInstructions,
                   promptSuffix := DefaultMrklSuffix, outputKey := DefaultOutputKey)
  }

  /** Conversational agent baseline: conversational prompt scaffolding and the default output key. */
  function ConversationalDefaults(): (r: CreationOptions)
    ensures r.promptPrefix == DefaultConversationalPrefix
    ensures r.formatInstructions == DefaultConversationalFormatInstructions
    ensures r.promptSuffix == DefaultConversationalSuffix && r.outputKey == DefaultOutputKey
    ensures forall f :: f !in {PromptPrefixField, FormatInstructionsField, PromptSuffixField, OutputKeyField} ==>
      Get(r, f) == Get(ZeroOptions(), f)
  {
    ZeroOptions().(promptPrefix := DefaultConversationalPrefix,
                   formatInstructions := DefaultConversationalFormatInstructions,
                   promptSuffix := DefaultConversationalSuffix, outputKey := DefaultOutputKey)
  }

  /** OpenAI functions agent baseline: a fixed system message and the default output key. */
  function OpenAIFunctionsDefaults(): (r: CreationOptions)
    ensures r.systemMessage == "You are a helpful AI assistant." && r.outputKey == DefaultOutputKey
    ensures forall f :: f !in {SystemMessageField, OutputKeyField} ==> Get(r, f) == Get(ZeroOptions(), f)
  {
    ZeroOptions().(systemMessage := DefaultSystemMessage, outputKey := DefaultOutputKey)
  }

  /** The MRKL and conversational baselines agree on every field but the three prompt-text fields. */
  lemma MrklAndConversationalDifferOnlyInPromptText()
    ensures forall f :: f !in {PromptPrefixField, FormatInstructionsField, PromptSuffixField} ==>
      Get(MrklDefaults(), f) == Get(ConversationalDefaults(), f)
    ensures Get(MrklDefaults(), OutputKeyField) == Get(ConversationalDefaults(), OutputKeyField) == TextValue(DefaultOutputKey)
  {
  }

  /** Which default set a record is seeded from. */
  datatype AgentKind = Executor | Mrkl | Conversational | OpenAIFunctions

  /** Every baseline sets the default output key and leaves the explicit prompt empty. */
  function Baseline(kind: AgentKind): (r: CreationOptions)
    ensures r.outputKey == DefaultOutputKey
    ensures r.prompt.template == ""
  {
    match kind
    case Executor => ExecutorDefaults()
    case Mrkl => MrklDefaults()
    case Conversational => ConversationalDefaults()
    case OpenAIFunctions => OpenAIFunctionsDefaults()
  }

  // ---------------------------------------------------------------------------
  // Options
  // ---------------------------------------------------------------------------

  /**
   One `CreationOption`, named after the Go constructor that builds it. The two
   OpenAI-only options are the methods of `OpenAIOption`, an empty struct.
   */
  datatype CreationOption =
    | WithMaxIterations(iterations: Int64)
    | WithOutputKey(outputKey: string)
    | WithPromptPrefix(prefix: string)
    | WithPromptFormatInstructions(instructions: string)
    | WithPromptSuffix(suffix: string)
    | WithPrompt(prompt: PromptTemplate)
    | WithReturnIntermediateSteps
    | WithMemory(memory: Option<Memory>)
    | WithCallbacksHandler(handler: Option<CallbacksHandler>)
    | WithParserErrorHandler(errorHandler: Option<ParserErrorHandler>)
    | WithSystemMessage(msg: string)
    | WithExtraMessages(extraMessages: seq<MessageFormatter>)

  /** The field an option writes. */
  function Target(opt: CreationOption): Field
  {
    match opt
    case WithMaxIterations(_) => MaxIterationsField
    case WithOutputKey(_) => OutputKeyField
    case WithPromptPrefix(_) => PromptPrefixField
    case WithPromptFormatInstructions(_) => FormatInstructionsField
    case WithPromptSuffix(_) => PromptSuffixField
    case WithPrompt(_) => PromptField
    case WithReturnIntermediateSteps => ReturnIntermediateStepsField
    case WithMemory(_) => MemoryField
    case WithCallbacksHandler(_) => CallbacksHandlerField
    case WithParserErrorHandler(_) => ErrorHandlerField
    case WithSystemMessage(_) => SystemMessageField
    case WithExtraMessages(_) => ExtraMessagesField
  }

  /** The value an option writes into its field. */
  function Written(opt: CreationOption): FieldValue
  {
    match opt
    case WithMaxIterations(n) => IntValue(n)
    case WithOutputKey(k) => TextValue(k)
    case WithPromptPrefix(s) => TextValue(s)
    case WithPromptFormatInstructions(s) => TextValue(s)
    case WithPromptSuffix(s) => TextValue(s)
    case WithPrompt(p) => PromptValue(p)
    case WithReturnIntermediateSteps => BoolValue(true)
    case WithMemory(m) => MemoryValue(m)
    case WithCallbacksHandler(h) => HandlerValue(h)
    case WithParserErrorHandler(h) => ErrorHandlerValue(h)
    case WithSystemMessage(s) => TextValue(s)
    case WithExtraMessages(ms) => MessagesValue(ms)
  }

  /** Runs one option's closure on a record: it writes its own field and no other. */
  function Apply(co: CreationOptions, opt: CreationOption): (r: CreationOptions)
    ensures Get(r, Target(opt)) == Written(opt)
    ensures forall f :: f != Target(opt) ==> Get(r, f) == Get(co, f)
  {
    match opt
    case WithMaxIterations(n) => co.(maxIterations := n)
    case WithOutputKey(k) => co.(outputKey := k)
    case WithPromptPrefix(s) => co.(promptPrefix := s)
    case WithPromptFormatInstructions(s) => co.(formatInstructions := s)
    case WithPromptSuffix(s) => co.(promptSuffix := s)
    case WithPrompt(p) => co.(prompt := p)
    case WithReturnIntermediateSteps => co.(returnIntermediateSteps := true)
    case WithMemory(m) => co.(memory := m)
    case WithCallbacksHandler(h) => co.(callbacksHandler := h)
    case WithParserErrorHandler(h) => co.(errorHandler := h)
    case WithSystemMessage(s) => co.(systemMessage := s)
    case WithExtraMessages(ms) => co.(extraMessages := ms)
  }

  lemma ApplyIsFieldGranular()
    ensures FieldGranular(Apply, Target, Get, Written)
  {
  }

  /** Options on different fields commute. */
  lemma DisjointOptionsCommute(co: CreationOptions, a: CreationOption, b: CreationOption)
    requires Target(a) != Target(b)
    ensures Apply(Apply(co, a), b) == Apply(Apply(co, b), a)
  {
  }

  /** Of two options on the same field, the later one wins outright. */
  lemma LaterOptionOverrides(r: CreationOptions, a: CreationOption, b: CreationOption)
    requires Target(a) == Target(b)
    ensures Apply(Apply(r, a), b) == Apply(r, b)
  {
  }

  /** `WithReturnIntermediateSteps` turns the flag on, and applying it again changes nothing. */
  lemma ReturnIntermediateStepsIdempotent(co: CreationOptions)
    ensures Apply(co, WithReturnIntermediateSteps).returnIntermediateSteps
    ensures Apply(Apply(co, WithReturnIntermediateSteps), WithReturnIntermediateSteps) == Apply(co, WithReturnIntermediateSteps)
  {
  }

  // ---------------------------------------------------------------------------
  // Resolution
  // ---------------------------------------------------------------------------

  /**
   The record an agent or executor of kind `kind` is created from: its baseline
   with the caller's options applied in order. Every field holds the value of
   the last option that targets it, or the baseline's value.
   */
  function Resolve(kind: AgentKind, opts: seq<CreationOption>): (r: CreationOptions)
    ensures forall f :: Get(r, f) == Effective(Target, Get, Written, Baseline(kind), opts, f)
  {
    ApplyIsFieldGranular();
    var r := ApplyAll(Apply, Baseline(kind), opts);
    assert forall f :: Get(r, f) == Effective(Target, Get, Written, Baseline(kind), opts, f) by {
      forall f
        ensures Get(r, f) == Effective(Target, Get, Written, Baseline(kind), opts, f)
      {
        LastWriteWins(Apply, Target, Get, Written, Baseline(kind), opts, f);
      }
    }
    r
  }

  /** `WithMaxIterations(x)` followed by `WithMaxIterations(y)` leaves the bound at `y`. */
  lemma MaxIterationsLastWins(kind: AgentKind, x: Int64, y: Int64)
    ensures Resolve(kind, [WithMaxIterations(x), WithMaxIterations(y)]).maxIterations == y
  {
    var opts := [WithMaxIterations(x), WithMaxIterations(y)];
    assert LastWriter(Target, opts, MaxIterationsField) == Some(1);
    assert Get(Resolve(kind, opts), MaxIterationsField) == IntValue(y);
  }

  /** Fields no option names keep their baseline values. */
  lemma UntargetedFieldsKeepBaseline(kind: AgentKind, opts: seq<CreationOption>, f: Field)
    requires forall i :: 0 <= i < |opts| ==> Target(opts[i]) != f
    ensures Get(Resolve(kind, opts), f) == Get(Baseline(kind), f)
  {
  }

  /** Lists of options on pairwise different fields resolve the same whatever their order. */
  lemma DisjointOptionsOrderIrrelevant(kind: AgentKind, opts: seq<CreationOption>, opts': seq<CreationOption>)
    requires DistinctTargets(Target, opts) && DistinctTargets(Target, opts')
    requires forall o :: o in opts <==> o in opts'
    ensures Resolve(kind, opts) == Resolve(kind, opts')
  {
    forall f
      ensures Get(Resolve(kind, opts), f) == Get(Resolve(kind, opts'), f)
    {
      SameMembersSameEffect(Target, Get, Written, Baseline(kind), opts, opts', f);
    }
    Extensionality(Resolve(kind, opts), Resolve(kind, opts'));
  }

  /** Swapping two adjacent options on different fields does not change the resolved record. */
  lemma AdjacentDisjointSwap(kind: AgentKind, p: seq<CreationOption>, a: CreationOption, b: CreationOption, s: seq<CreationOption>)
    requires Target(a) != Target(b)
    ensures Resolve(kind, p + [a, b] + s) == Resolve(kind, p + [b, a] + s)
  {
    ApplyIsFieldGranular();
    SwapDisjoint(Apply, Target, Get, Written, Baseline(kind), p, a, b, s);
    Extensionality(Resolve(kind, p + [a, b] + s), Resolve(kind, p + [b, a] + s));
  }

  // ---------------------------------------------------------------------------
  // Prompt derivation
  // ---------------------------------------------------------------------------

  /**
   The prompt a MRKL agent uses. `createMrkl` stands for the package's
   `createMRKLPrompt(tools, prefix, formatInstructions, suffix)`, whose body is
   not part of this model.
   */
  function GetMrklPrompt(
    co: CreationOptions, tools: seq<Tool>,
    createMrkl: (seq<Tool>, string, string, string) -> PromptTemplate): (r: PromptTemplate)
    ensures co.prompt.template != "" ==> r == co.prompt
    ensures co.prompt.template == "" ==> r == createMrkl(tools, co.promptPrefix, co.formatInstructions, co.promptSuffix)
  {
    if co.prompt.template != "" then co.prompt
    else createMrkl(tools, co.promptPrefix, co.formatInstructions, co.promptSuffix)
  }

  /**
   The prompt a conversational agent uses; `createConversational` stands for
   the package's `createConversationalPrompt`.
   */
  function GetConversationalPrompt(
    co: CreationOptions, tools: seq<Tool>,
    createConversational: (seq<Tool>, string, string, string) -> PromptTemplate): (r: PromptTemplate)
    ensures co.prompt.template != "" ==> r == co.prompt
    ensures co.prompt.template == "" ==>
      r == createConversational(tools, co.promptPrefix, co.formatInstructions, co.promptSuffix)
  {
    if co.prompt.template != "" then co.prompt
    else createConversational(tools, co.promptPrefix, co.formatInstructions, co.promptSuffix)
  }

  /** The explicit prompt, when non-empty, wins whatever prefix, instructions, suffix or tools are. */
  lemma ExplicitPromptIgnoresScaffolding(
    co: CreationOptions, prefix: string, instructions: string, suffix: string,
    tools: seq<Tool>, tools': seq<Tool>, create: (seq<Tool>, string, string, string) -> PromptTemplate)
    requires co.prompt.template != ""
    ensures GetMrklPrompt(co.(promptPrefix := prefix, formatInstructions := instructions, promptSuffix := suffix), tools', create)
         == GetMrklPrompt(co, tools, create)
    ensures GetConversationalPrompt(co.(promptPrefix := prefix, formatInstructions := instructions, promptSuffix := suffix), tools', create)
         == GetConversationalPrompt(co, tools, create)
  {
  }

  /**
   If the last `WithPrompt` in the list carries a non-empty template, both
   accessors return that prompt, whatever other options the list holds and
   wherever they stand.
   */
  lemma LastExplicitPromptWins(
    kind: AgentKind, opts: seq<CreationOption>, i: nat, tools: seq<Tool>,
    createMrkl: (seq<Tool>, string, string, string) -> PromptTemplate,
    createConversational: (seq<Tool>, string, string, string) -> PromptTemplate)
    requires i < |opts| && opts[i].WithPrompt? && opts[i].prompt.template != ""
    requires forall j :: i < j < |opts| ==> !opts[j].WithPrompt?
    ensures GetMrklPrompt(Resolve(kind, opts), tools, createMrkl) == opts[i].prompt
    ensures GetConversationalPrompt(Resolve(kind, opts), tools, createConversational) == opts[i].prompt
  {
    assert LastWriter(Target, opts, PromptField) == Some(i);
    assert Get(Resolve(kind, opts), PromptField) == PromptValue(opts[i].prompt);
  }

  /**
   Without any `WithPrompt`, the prompt is always synthesised, from the
   resolved prefix, format instructions and suffix: no baseline sets a prompt.
   */
  lemma PromptSynthesisedWithoutExplicitPrompt(
    kind: AgentKind, opts: seq<CreationOption>, tools: seq<Tool>,
    createMrkl: (seq<Tool>, string, string, string) -> PromptTemplate,
    createConversational: (seq<Tool>, string, string, string) -> PromptTemplate)
    requires forall j :: 0 <= j < |opts| ==> !opts[j].WithPrompt?
    ensures var co := Resolve(kind, opts);
      GetMrklPrompt(co, tools, createMrkl) == createMrkl(tools, co.promptPrefix, co.formatInstructions, co.promptSuffix)
    ensures var co := Resolve(kind, opts);
      GetConversationalPrompt(co, tools, createConversational)
        == createConversational(tools, co.promptPrefix, co.formatInstructions, co.promptSuffix)
  {
    UntargetedFieldsKeepBaseline(kind, opts, PromptField);
  }

  /**
   If the last `WithPrompt` in the list carries an empty template, both accessors
   synthesise the prompt, even when an earlier `WithPrompt` carried a non-empty one.
   */
  lemma LaterEmptyPromptRestoresSynthesis(
    kind: AgentKind, opts: seq<CreationOption>, i: nat, tools: seq<Tool>,
    createMrkl: (seq<Tool>, string, string, string) -> PromptTemplate,
    createConversational: (seq<Tool>, string, string, string) -> PromptTemplate)
    requires i < |opts| && opts[i].WithPrompt? && opts[i].prompt.template == ""
    requires forall j :: i < j < |opts| ==> !opts[j].WithPrompt?
    ensures var co := Resolve(kind, opts);
      GetMrklPrompt(co, tools, createMrkl) == createMrkl(tools, co.promptPrefix, co.formatInstructions, co.promptSuffix)
    ensures var co := Resolve(kind, opts);
      GetConversationalPrompt(co, tools, createConversational)
        == createConversational(tools, co.promptPrefix, co.formatInstructions, co.promptSuffix)
  {
    assert LastWriter(Target, opts, PromptField) == Some(i);
    assert Get(Resolve(kind, opts), PromptField) == PromptValue(opts[i].prompt);
  }
}
