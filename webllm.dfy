/**
 * The adapter to the in-browser language model: the system prompt built from
 * a persona, the engine created at most once, and the reply text taken from
 * a completion.
 */
module WebLLM {
  import opened Wrappers
  import opened Text
  import opened Agents

  const DefaultModel := "Llama-3.1-8B-Instruct-q4f32_1-MLC"

  /** What separates the parts of the system prompt. */
  const Separator := " \n"

  // The two fixed instructions, as the source file spells them.
  const Conciseness := "Respond concisely in 1â€“2 sentences, natural and conversational, and stay in character."
  const Safety := "Avoid explicit content, slurs, or harmful advice. Be supportive and emotionally intelligent."
  const DefaultLanguage := "Reply in the language the user used; if unclear, default to English."

  function Introduction(agent: Agent): string {
    "You are " + agent.name + ", an AI companion with a " + agent.personality + " personality."
  }

  function TraitsLine(traits: seq<string>): string {
    "Traits: " + Join(traits, ", ") + "."
  }

  /** A language is requested when it is given and not the empty (falsy) string. */
  predicate Requested(language: Option<string>) {
    language.Some? && language.value != ""
  }

  function LanguageInstruction(language: Option<string>): string {
    if Requested(language) then
      "Reply in " + language.value + ". If the user's message uses a different language/script, prefer their language."
    else DefaultLanguage
  }

  /**
   * The parts of the system prompt: the introduction first; the description
   * exactly when it is non-empty; the traits line exactly when there are
   * traits; then conciseness, safety and, last, the one language instruction.
   */
  function PromptParts(agent: Agent, language: Option<string>): (parts: seq<string>)
    ensures 4 <= |parts| <= 6
    ensures |parts| == 4 + (if agent.description != "" then 1 else 0) + (if agent.traits != [] then 1 else 0)
    ensures parts[0] == Introduction(agent)
    ensures agent.description != "" ==> parts[1] == agent.description
    ensures agent.traits != [] ==> parts[|parts| - 4] == TraitsLine(agent.traits)
    ensures parts[|parts| - 3] == Conciseness && parts[|parts| - 2] == Safety
    ensures parts[|parts| - 1] == LanguageInstruction(language)
  {
    [Introduction(agent)]
    + (if agent.description != "" then [agent.description] else [])
    + (if agent.traits != [] then [TraitsLine(agent.traits)] else [])
    + [Conciseness, Safety, LanguageInstruction(language)]
  }

  function SystemPrompt(agent: Agent, language: Option<string>): string {
    Join(PromptParts(agent, language), Separator)
  }

  /** `buildSystemPrompt`: push the parts one by one, then join them. */
  method BuildSystemPrompt(agent: Agent, language: Option<string>) returns (prompt: string)
    ensures prompt == SystemPrompt(agent, language)
  {
    var parts: seq<string> := [];
    parts := parts + [Introduction(agent)];
    if agent.description != "" {
      parts := parts + [agent.description];
    }
    assert parts == [Introduction(agent)] + (if agent.description != "" then [agent.description] else []);
    if agent.traits != [] {
      parts := parts + [TraitsLine(agent.traits)];
    }
    parts := parts + [Conciseness];
    parts := parts + [Safety];
    if language.Some? && language.value != "" {
      parts := parts + [LanguageInstruction(language)];
    } else {
      parts := parts + [DefaultLanguage];
    }
    assert parts == PromptParts(agent, language);
    prompt := Join(parts, Separator);
  }

  /** The prompt opens with the introduction sentence. */
  lemma PromptBeginsWithIntroduction(agent: Agent, language: Option<string>)
    ensures Introduction(agent) <= SystemPrompt(agent, language)
  {
    JoinStartsWithFirst(PromptParts(agent, language), Separator);
  }

  /**
   * The prompt closes with the separator and then the language
   * instruction, which is therefore its last line.
   */
  lemma PromptEndsWithLanguageInstruction(agent: Agent, language: Option<string>)
    ensures var p := SystemPrompt(agent, language);
      var tail := Separator + LanguageInstruction(language);
      |tail| <= |p| && p[|p| - |tail|..] == tail
  {
    var parts := PromptParts(agent, language);
    var n := |parts|;
    assert parts == parts[..n - 1] + [parts[n - 1]];
    JoinAppend(parts[..n - 1], parts[n - 1], Separator);
  }

  /**
   * How the promise `CreateMLCEngine` returns settles: an engine ready for
   * the model, or a rejection. Either way the promise is kept.
   */
  datatype Engine = Ready(modelId: string) | Failed(modelId: string)

  /** The chat turns sent to the model. */
  datatype Role = System | User
  datatype Turn = Turn(role: Role, content: string)

  /** How `engine.chat.completions.create` settles: the first choice's content, if any, or a rejection. */
  datatype Completion = Completed(content: Option<string>) | CompletionFailed

  /** What `generateWithWebLLM` settles to: the reply text, or a rejection. */
  datatype Generation = Reply(text: string) | Rejection

  /**
   * The module-level `enginePromise`: set on the first call and never
   * again, so a rejected creation stays cached and is never retried.
   */
  class EngineCache {
    var enginePromise: Option<Engine>
    /** How many times `CreateMLCEngine` has been called. */
    ghost var creations: nat

    ghost predicate Valid()
      reads this
    {
      creations == if enginePromise.Some? then 1 else 0
    }

    constructor ()
      ensures Valid() && enginePromise == None
    {
      enginePromise := None;
      creations := 0;
    }

    /**
     * `getEngine(modelId)`: the first call creates the engine for `modelId`
     * (or the default model); `loads` says whether that creation succeeds.
     * Every later call returns that same engine, or that same rejection,
     * whatever model it asks for.
     */
    method GetEngine(modelId: Option<string>, loads: bool) returns (engine: Engine)
      requires Valid()
      modifies this
      ensures Valid() && creations <= 1
      ensures enginePromise == Some(engine)
      ensures old(enginePromise).Some? ==> engine == old(enginePromise).value && creations == old(creations)
      ensures old(enginePromise).None? ==>
        engine == (var m := modelId.GetOr(DefaultModel); if loads then Ready(m) else Failed(m))
    {
      if enginePromise.None? {
        var m := modelId.GetOr(DefaultModel);
        enginePromise := Some(if loads then Ready(m) else Failed(m));
        creations := creations + 1;
      }
      engine := enginePromise.value;
    }
  }

  /**
   * `generateWithWebLLM`: get the shared engine (for the default model),
   * then send the system prompt and the user's text. It rejects when the
   * engine did, without sending anything, and when the completion does;
   * otherwise it gives the first choice's content trimmed, or "" when there
   * is none. `engineLoads` and `completion` stand for the library's answers.
   */
  method Generate(cache: EngineCache, agent: Agent, userText: string, language: Option<string>,
                  engineLoads: bool, completion: Completion)
    returns (request: Option<seq<Turn>>, result: Generation)
    requires cache.Valid()
    modifies cache
    ensures cache.Valid() && cache.creations <= 1 && cache.enginePromise.Some?
    ensures old(cache.enginePromise).Some? ==> cache.enginePromise == old(cache.enginePromise)
    ensures old(cache.enginePromise).None? ==>
      cache.enginePromise == Some(if engineLoads then Ready(DefaultModel) else Failed(DefaultModel))
    ensures cache.enginePromise.value.Failed? ==> request == None && result == Rejection
    ensures cache.enginePromise.value.Ready? ==>
      request == Some([Turn(System, SystemPrompt(agent, language)), Turn(User, userText)])
    ensures cache.enginePromise.value.Ready? && completion.CompletionFailed? ==> result == Rejection
    ensures cache.enginePromise.value.Ready? && completion.Completed? ==>
      && result == Reply(Trim(completion.content.GetOr("")))
      && (completion.content.None? ==> result.text == "")
      && (result.text == "" || (!IsWhitespace(result.text[0]) && !IsWhitespace(result.text[|result.text| - 1])))
  {
    var engine := cache.GetEngine(None, engineLoads);
    if engine.Failed? {
      return None, Rejection;
    }
    var systemPrompt := BuildSystemPrompt(agent, language);
    var turns := [Turn(System, systemPrompt), Turn(User, userText)];
    request := Some(turns);
    if completion.CompletionFailed? {
      return request, Rejection;
    }
    var text := completion.content.GetOr("");
    result := Reply(Trim(text));
  }
}
