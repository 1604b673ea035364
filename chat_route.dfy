/** The chat endpoint (app/api/ai/chat/route.ts): the system prompt built from the
    conversation context, and the handler's responses. The language-model service
    is a parameter: its outcome is an input, and the handler reports the prompt it
    would have been given. */
module ChatRoute {
  import opened Options
  import opened Text
  import opened Records

  /** The `context` object of a chat request. */
  datatype ChatContext = ChatContext(stage: Option<string>, previousAnswers: Option<Entries>,
                                     currentModule: Option<string>)

  const MentorIntro :=
    "You are an experienced startup mentor helping founders refine their problem statements through "
    + "iterative conversation. Your role is to:\n\n"
    + "1. Ask thoughtful, probing questions that help founders think deeper\n"
    + "2. Challenge assumptions constructively\n"
    + "3. Help identify blind spots\n"
    + "4. Guide them toward clearer, more specific problem definitions\n"
    + "5. Provide feedback on their responses\n"
    + "6. Suggest improvements and refinements\n\n"

  const ContextHeader := "\n\nPrevious context from the founder:\n"

  const Guidelines :=
    "\n\nGuidelines:\n"
    + "- Be conversational and encouraging\n"
    + "- Ask one focused question at a time\n"
    + "- Provide specific examples when helpful\n"
    + "- If their answer is vague, ask for clarification\n"
    + "- Help them move from broad problems to specific, solvable ones\n"
    + "- When appropriate, summarize what you've learned and ask for confirmation\n"
    + "- If they seem stuck, provide gentle suggestions or frameworks"

  const KeyMention := "API key"
  const KeyError := KeyMention + " not configured. Please add ANTHROPIC_API_KEY to .env.local"

  const FallbackError := "Failed to get AI response"

  /** `value || fallback` for an optional string. */
  function OrElse(value: Option<string>, fallback: string): (r: string)
    ensures value.Some? && value.value != "" ==> r == value.value
    ensures value.None? || value.value == "" ==> r == fallback
  {
    if value.Some? && value.value != "" then value.value else fallback
  }

  const ModuleLabel := "Current module: "
  const StageLabel := "\nStage: "
  const DefaultModule := "Problem Statement"
  const DefaultStage := "initial"

  /** The module and stage lines of the prompt. */
  function ModuleLines(ctx: ChatContext): string {
    ModuleLabel + OrElse(ctx.currentModule, DefaultModule) + StageLabel + OrElse(ctx.stage, DefaultStage) + "\n"
  }

  function EntryLine(e: (string, string)): string {
    e.0 + ": " + e.1 + "\n"
  }

  /** One `key: value` line per entry, in entry order. */
  function EntryLines(es: Entries): string {
    if es == [] then "" else EntryLines(es[..|es| - 1]) + EntryLine(es[|es| - 1])
  }

  /** The context block: present, header first, exactly when there are previous answers. */
  function ContextBlock(ctx: ChatContext): string {
    if ctx.previousAnswers.Some? then ContextHeader + EntryLines(ctx.previousAnswers.value) else ""
  }

  /** The prompt around a given introduction and closing text. */
  function Framed(intro: string, ctx: ChatContext, closing: string): string {
    intro + ModuleLines(ctx) + ContextBlock(ctx) + closing
  }

  /** The prompt `buildSystemPrompt` produces. */
  function SystemPrompt(ctx: ChatContext): string {
    Framed(MentorIntro, ctx, Guidelines)
  }

  /** `buildSystemPrompt`. */
  method BuildSystemPrompt(ctx: ChatContext) returns (basePrompt: string)
    ensures basePrompt == SystemPrompt(ctx)
  {
    basePrompt := FramedPrompt(MentorIntro, ctx, Guidelines);
  }

  /** The steps of `buildSystemPrompt`, with the introduction and the closing
      guidelines as parameters. */
  method FramedPrompt(intro: string, ctx: ChatContext, closing: string) returns (basePrompt: string)
    ensures basePrompt == Framed(intro, ctx, closing)
  {
    var head := intro + ModuleLines(ctx);
    basePrompt := head;
    if ctx.previousAnswers.Some? {
      var entries := ctx.previousAnswers.value;
      basePrompt := basePrompt + ContextHeader;
      var i := 0;
      while i < |entries|
        invariant i <= |entries|
        invariant basePrompt == head + ContextHeader + EntryLines(entries[..i])
      {
        assert entries[..i + 1][..i] == entries[..i];
        Assoc(head + ContextHeader, EntryLines(entries[..i]), EntryLine(entries[i]));
        basePrompt := basePrompt + EntryLine(entries[i]);
        i := i + 1;
      }
      assert entries[..i] == entries;
      Assoc(head, ContextHeader, EntryLines(entries));
    }
    basePrompt := basePrompt + closing;
  }

  /** Entry lines of two entry lists one after the other are the lines of each, in order. */
  lemma {:induction false} EntryLinesAppend(a: Entries, b: Entries)
    ensures EntryLines(a + b) == EntryLines(a) + EntryLines(b)
  {
    if b == [] {
      assert a + b == a;
    } else {
      var ab := a + b;
      var init, last := b[..|b| - 1], b[|b| - 1];
      assert ab[..|ab| - 1] == a + init;
      assert ab[|ab| - 1] == last;
      var line := EntryLine(last);
      assert EntryLines(ab) == EntryLines(a + init) + line;
      assert EntryLines(b) == EntryLines(init) + line;
      EntryLinesAppend(a, init);
      Assoc(EntryLines(a), EntryLines(init), line);
    }
  }

  lemma {:induction false} EntryLinesSingle(e: (string, string))
    ensures EntryLines([e]) == e.0 + ": " + e.1 + "\n"
  {
    assert [e][..0] == [];
  }

  /** Concatenation is associative (said once, on plain variables). */
  lemma {:induction false} Assoc(a: string, b: string, c: string)
    ensures a + b + c == a + (b + c)
  {
  }

  lemma {:induction false} SuffixContained(x: string, y: string)
    ensures Contains(x + y, y)
  {
    ContainsAt(x + y, y, |x|);
  }

  lemma {:induction false} FramedModuleLines(intro: string, ctx: ChatContext, closing: string)
    ensures Contains(Framed(intro, ctx, closing), ModuleLines(ctx))
  {
    ContainsFramed(intro, ModuleLines(ctx), "", ModuleLines(ctx)) by {
      PrefixContained(ModuleLines(ctx), ModuleLines(ctx));
    }
    Assoc(intro + ModuleLines(ctx), ContextBlock(ctx), closing);
    ContainsFramed(intro, ModuleLines(ctx), ContextBlock(ctx) + closing, ModuleLines(ctx)) by {
      PrefixContained(ModuleLines(ctx), ModuleLines(ctx));
    }
  }

  /** The module line falls back to "Problem Statement" and the stage to "initial"
      when they are missing or empty. */
  lemma {:induction false} PromptModuleAndStage(ctx: ChatContext)
    ensures Contains(SystemPrompt(ctx),
      ModuleLabel + OrElse(ctx.currentModule, DefaultModule) + StageLabel + OrElse(ctx.stage, DefaultStage) + "\n")
    ensures ctx.currentModule.None? && ctx.stage.None? ==>
      Contains(SystemPrompt(ctx), ModuleLabel + DefaultModule + StageLabel + DefaultStage + "\n")
  {
    FramedModuleLines(MentorIntro, ctx, Guidelines);
  }

  lemma {:induction false} FramedContextBlock(intro: string, ctx: ChatContext, closing: string)
    ensures ctx.previousAnswers.Some? ==>
      Contains(Framed(intro, ctx, closing), ContextHeader + EntryLines(ctx.previousAnswers.value) + closing)
    ensures ctx.previousAnswers.None? ==> Framed(intro, ctx, closing) == intro + ModuleLines(ctx) + closing
  {
    if ctx.previousAnswers.Some? {
      var block := ContextHeader + EntryLines(ctx.previousAnswers.value);
      Assoc(intro + ModuleLines(ctx), block, closing);
      SuffixContained(intro + ModuleLines(ctx), block + closing);
    }
  }

  /** The context header is there, even for an empty object, exactly when previous
      answers were sent; without them the guidelines follow the stage line directly. */
  lemma {:induction false} PromptContextBlock(ctx: ChatContext)
    ensures ctx.previousAnswers.Some? ==>
      Contains(SystemPrompt(ctx), ContextHeader + EntryLines(ctx.previousAnswers.value) + Guidelines)
    ensures ctx.previousAnswers.None? ==> SystemPrompt(ctx) == MentorIntro + ModuleLines(ctx) + Guidelines
  {
    FramedContextBlock(MentorIntro, ctx, Guidelines);
  }

  lemma {:induction false} FramedEndsWith(intro: string, ctx: ChatContext, closing: string)
    ensures EndsWith(Framed(intro, ctx, closing), closing)
  {
    var p := Framed(intro, ctx, closing);
    assert p[|p| - |closing|..] == closing;
  }

  /** The guidelines always close the prompt. */
  lemma {:induction false} PromptEndsWithGuidelines(ctx: ChatContext)
    ensures EndsWith(SystemPrompt(ctx), Guidelines)
  {
    FramedEndsWith(MentorIntro, ctx, Guidelines);
  }

  /** What the language-model service does when it is called. */
  datatype ServiceOutcome = Replied(text: string) | Threw(message: string)

  datatype Body = Content(content: string) | Error(error: string)

  datatype Response = Response(status: nat, body: Body)

  /** The handler's response, and the system prompt the service was called with, if it was. */
  datatype PostResult = PostResult(response: Response, calledWith: Option<string>)

  /** `POST` on a parsed request: `apiKey` is the `ANTHROPIC_API_KEY` setting. */
  function Post(apiKey: Option<string>, ctx: ChatContext, service: ServiceOutcome): PostResult {
    if apiKey.None? || apiKey.value == "" then PostResult(Response(500, Error(KeyError)), None)
    else
      var prompt := SystemPrompt(ctx);
      match service
      case Replied(text) => PostResult(Response(200, Content(text)), Some(prompt))
      case Threw(message) => PostResult(Response(500, Error(OrElse(Some(message), FallbackError))), Some(prompt))
  }

  lemma KeyErrorMentionsKey()
    ensures Contains(KeyError, KeyMention)
  {
    PrefixContained(KeyError, KeyMention);
  }

  /** Without an API key the handler answers 500 with an error naming the key, and
      never calls the service. */
  lemma {:induction false} MissingKey(apiKey: Option<string>, ctx: ChatContext, service: ServiceOutcome)
    requires apiKey.None? || apiKey.value == ""
    ensures var r := Post(apiKey, ctx, service);
      && r.response.status == 500 && r.response.body.Error?
      && Contains(r.response.body.error, KeyMention)
      && r.calledWith == None
  {
    KeyErrorMentionsKey();
  }

  /** With a key the service is called with the system prompt; its reply is passed on
      with status 200, and a failure becomes a 500 carrying its message, or a fixed
      one when the message is empty. */
  lemma {:induction false} WithKey(apiKey: string, ctx: ChatContext, service: ServiceOutcome)
    requires apiKey != ""
    ensures var r := Post(Some(apiKey), ctx, service);
      && r.calledWith == Some(SystemPrompt(ctx))
      && (service.Replied? ==> r.response == Response(200, Content(service.text)))
      && (service.Threw? && service.message != "" ==> r.response == Response(500, Error(service.message)))
      && (service.Threw? && service.message == "" ==> r.response == Response(500, Error(FallbackError)))
  {
  }
}
