/** The AI-guided problem-statement chat (app/components/modules/AIProblemStatementModule.tsx).
    `sendMessage` is asynchronous, so it is modelled in two steps: `BeginSend`
    runs up to the request, and `FinishSend` runs when the outcome arrives, on
    the state as it is then. What the suspended call captured before the request
    (the message count and the stage of its render, and the user's text) is kept
    in a `Pending` value; updates the source writes as `prev => ...` act on the
    current state, `setStage` sets an absolute value. */
module ChatSession {
  import opened Options
  import opened Text
  import opened Records
  import opened Artifacts
  import ChatRoute

  datatype Role = User | Assistant

  /** A chat message without its id and timestamp. */
  datatype Message = Message(role: Role, content: string)

  datatype Stage = Discovery | Refinement | Validation

  function StageName(s: Stage): string {
    match s
    case Discovery => "discovery"
    case Refinement => "refinement"
    case Validation => "validation"
  }

  function Rank(s: Stage): nat {
    match s
    case Discovery => 0
    case Refinement => 1
    case Validation => 2
  }

  const Greeting := "Hi! I'm here to help you create a strong problem statement for your startup. Let's start "
    + "with understanding who you're trying to help. Can you tell me about the specific group of people or "
    + "businesses that experience the problem you want to solve?"

  const RestartGreeting := "Let's start fresh. Tell me about the problem you're passionate about solving. "
    + "Who experiences this problem?"

  const KeyHelp := "It looks like the API key isn't configured. Please add your Anthropic API key to the "
    + ".env.local file."

  const RetryHelp := "I'm having trouble connecting right now. Please try again."

  /** The text whose presence in an error message selects `KeyHelp`. */
  const ApiKeyMention := "API key"

  /** The three context fields `updateContext` fills in. */
  const TargetCustomerKey := "targetCustomer"
  const ProblemDescriptionKey := "problemDescription"
  const CurrentSolutionsKey := "currentSolutions"

  predicate IsContextKey(k: string) {
    k == TargetCustomerKey || k == ProblemDescriptionKey || k == CurrentSolutionsKey
  }

  /** The component's state. */
  datatype State = State(messages: seq<Message>, input: string, loading: bool, context: Entries, stage: Stage)

  /** What a suspended `sendMessage` captured: `messages.length` and `stage` of the
      render it belongs to, and the text it sent. */
  datatype Pending = Pending(count: nat, userInput: string, stage: Stage)

  /** The body posted to `/api/ai/chat`. */
  datatype ChatRequest = ChatRequest(messages: seq<Message>, context: ChatRoute.ChatContext)

  /** What the request comes back with: the reply of an ok response, or the message
      of the error thrown (the `error` of a failed response, or a network error). */
  datatype Outcome = Replied(content: string) | Failed(message: string)

  function Initial(): State {
    State([Message(Assistant, Greeting)], "", false, [], Discovery)
  }

  /** A suspended send, if any, matches the loading flag; the stage has not moved
      past the one the send captured (only a restart changes it meanwhile); the
      conversation is never empty; the context holds only the three fields, once each. */
  predicate Valid(s: State, p: Option<Pending>) {
    && s.messages != []
    && (p.Some? <==> s.loading)
    && (p.Some? ==> Rank(s.stage) <= Rank(p.value.stage))
    && UniqueKeys(s.context)
    && (forall k :: k in Keys(s.context) ==> IsContextKey(k))
  }

  lemma InitialValid()
    ensures Valid(Initial(), None)
    ensures |Initial().messages| == 1 && Initial().messages[0].role == Assistant
    ensures Initial().context == [] && Initial().stage == Discovery && !Initial().loading
  {
  }

  /** `sendMessage`'s guard. */
  predicate Accepts(s: State) {
    Trim(s.input) != "" && !s.loading
  }

  function RequestContext(s: State): ChatRoute.ChatContext {
    ChatRoute.ChatContext(Some(StageName(s.stage)), Some(s.context), Some("Problem Statement"))
  }

  /** `sendMessage` up to the request: the new state, and the suspended call with the
      request it posted, if the guard lets it through. */
  function BeginSend(s: State): (State, Option<(Pending, ChatRequest)>) {
    if !Accepts(s) then (s, None)
    else
      var messages := s.messages + [Message(User, s.input)];
      (s.(messages := messages, input := "", loading := true),
       Some((Pending(|s.messages|, s.input, s.stage), ChatRequest(messages, RequestContext(s)))))
  }

  /** The assistant message shown for an outcome. */
  function Reply(outcome: Outcome): Message {
    match outcome
    case Replied(content) => Message(Assistant, content)
    case Failed(message) => Message(Assistant, if Contains(message, ApiKeyMention) then KeyHelp else RetryHelp)
  }

  /** `updateContext`'s context update, from the message count `n` the send captured. */
  function UpdateContext(ctx: Entries, n: nat, userInput: string): Entries {
    if n < 3 then Put(ctx, TargetCustomerKey, userInput)
    else if n < 5 then Put(ctx, ProblemDescriptionKey, userInput)
    else if n < 7 then Put(ctx, CurrentSolutionsKey, userInput)
    else ctx
  }

  /** `updateContext`'s stage update: `n` and `stale` are what the send captured,
      `current` the stage when the reply arrives. */
  function NextStage(n: nat, stale: Stage, current: Stage): Stage {
    if n > 6 && stale == Discovery then Refinement
    else if n > 12 && stale == Refinement then Validation
    else current
  }

  /** `sendMessage` from the outcome on, applied to the state at that time. */
  function FinishSend(s: State, p: Pending, outcome: Outcome): State {
    var messages := s.messages + [Reply(outcome)];
    if outcome.Replied? then
      s.(messages := messages, loading := false, context := UpdateContext(s.context, p.count, p.userInput),
         stage := NextStage(p.count, p.stage, s.stage))
    else s.(messages := messages, loading := false)
  }

  /** `restartConversation`; a request in flight is not cancelled. */
  function Restart(s: State): State {
    s.(messages := [Message(Assistant, RestartGreeting)], context := [], stage := Discovery)
  }

  /** Typing: the input is disabled while a request is in flight. */
  function EditInput(s: State, value: string): State {
    if s.loading then s else s.(input := value)
  }

  /** The send goes ahead exactly when the input is not blank and nothing is in flight;
      otherwise nothing changes. */
  lemma {:induction false} SendGuard(s: State)
    ensures BeginSend(s).1.Some? <==> Trim(s.input) != "" && !s.loading
    ensures BeginSend(s).1.None? ==> BeginSend(s).0 == s
  {
  }

  /** An accepted send shows the user's text at once, clears the input, marks the
      request in flight and posts the whole conversation with the stage and context. */
  lemma {:induction false} SendPosts(s: State)
    requires Accepts(s)
    ensures var (t, sent) := BeginSend(s);
      && sent.Some?
      && t.messages == s.messages + [Message(User, s.input)]
      && t.input == "" && t.loading
      && t.context == s.context && t.stage == s.stage
      && sent.value.1.messages == t.messages
      && sent.value.1.context.stage == Some(StageName(s.stage))
      && sent.value.1.context.previousAnswers == Some(s.context)
      && sent.value.0 == Pending(|s.messages|, s.input, s.stage)
  {
  }

  /** Each accepted send, once its outcome is in, has added exactly two messages:
      the user's, then the reply. */
  lemma {:induction false} SendAddsTwo(s: State, outcome: Outcome)
    requires Accepts(s)
    ensures var (t, sent) := BeginSend(s);
      FinishSend(t, sent.value.0, outcome).messages == s.messages + [Message(User, s.input), Reply(outcome)]
  {
  }

  lemma KeyHelpDiffers()
    ensures KeyHelp != RetryHelp
  {
    assert |KeyHelp| != |RetryHelp|;
  }

  /** The reply text on success; on failure the API-key hint exactly when the error
      mentions the API key, and the generic retry message otherwise. */
  lemma {:induction false} ReplyCases(outcome: Outcome)
    ensures Reply(outcome).role == Assistant
    ensures outcome.Replied? ==> Reply(outcome).content == outcome.content
    ensures outcome.Failed? ==> (Reply(outcome).content == KeyHelp <==> Contains(outcome.message, ApiKeyMention))
    ensures outcome.Failed? ==> (Reply(outcome).content == RetryHelp <==> !Contains(outcome.message, ApiKeyMention))
  {
    KeyHelpDiffers();
  }

  /** The route's answer when no API key is configured makes the chat show the API-key hint. */
  lemma {:induction false} MissingKeyShown(apiKey: Option<string>, ctx: ChatRoute.ChatContext, service: ChatRoute.ServiceOutcome)
    requires apiKey.None? || apiKey.value == ""
    ensures var r := ChatRoute.Post(apiKey, ctx, service);
      r.response.body.Error? && Reply(Failed(r.response.body.error)).content == KeyHelp
  {
    ChatRoute.MissingKey(apiKey, ctx, service);
  }

  /** The context field set by a reply depends on the count `n` before the send:
      below 3 the target customer, below 5 the problem description, below 7 the
      current solutions, and nothing after that; no other field changes, and
      existing fields keep their order. */
  lemma {:induction false} ContextByCount(ctx: Entries, n: nat, u: string, k: string)
    ensures var r := UpdateContext(ctx, n, u);
      && (n < 3 ==> Get(r, TargetCustomerKey) == Some(u))
      && (3 <= n < 5 ==> Get(r, ProblemDescriptionKey) == Some(u))
      && (5 <= n < 7 ==> Get(r, CurrentSolutionsKey) == Some(u))
      && (n >= 7 ==> r == ctx)
      && (Get(r, k) != Get(ctx, k) ==>
            (n < 3 && k == TargetCustomerKey) || (3 <= n < 5 && k == ProblemDescriptionKey)
            || (5 <= n < 7 && k == CurrentSolutionsKey))
      && Keys(ctx) <= Keys(r)
  {
    var key := if n < 3 then TargetCustomerKey else if n < 5 then ProblemDescriptionKey else CurrentSolutionsKey;
    if n < 7 {
      GetPut(ctx, key, u, k);
      GetPut(ctx, key, u, key);
      PutKeys(ctx, key, u);
    }
  }

  /** `UpdateContext` only ever writes the three fields, and never duplicates one. */
  lemma {:induction false} ContextFields(ctx: Entries, n: nat, u: string)
    requires UniqueKeys(ctx) && forall k :: k in Keys(ctx) ==> IsContextKey(k)
    ensures UniqueKeys(UpdateContext(ctx, n, u))
    ensures forall k :: k in Keys(UpdateContext(ctx, n, u)) ==> IsContextKey(k)
  {
    var key := if n < 3 then TargetCustomerKey else if n < 5 then ProblemDescriptionKey else CurrentSolutionsKey;
    if n < 7 {
      PutUnique(ctx, key, u);
      PutKeys(ctx, key, u);
    }
  }

  function Succ(s: Stage): Stage {
    match s
    case Discovery => Refinement
    case Refinement => Validation
    case Validation => Validation
  }

  /** Discovery gives way to refinement after more than six messages, refinement to
      validation after more than twelve, and validation is final. */
  lemma {:induction false} StageThresholds(n: nat)
    ensures NextStage(n, Discovery, Discovery) == Refinement <==> n > 6
    ensures NextStage(n, Refinement, Refinement) == Validation <==> n > 12
    ensures NextStage(n, Validation, Validation) == Validation
  {
  }

  /** Without a restart in between, a reply moves the stage at most one step forward. */
  lemma {:induction false} StageOneStep(n: nat, st: Stage)
    ensures NextStage(n, st, st) == st || NextStage(n, st, st) == Succ(st)
    ensures Rank(st) <= Rank(NextStage(n, st, st)) <= Rank(st) + 1
  {
  }

  /** The stage never goes back, as long as it has not moved past the captured one. */
  lemma {:induction false} StageNeverRegresses(n: nat, stale: Stage, current: Stage)
    requires Rank(current) <= Rank(stale)
    ensures Rank(current) <= Rank(NextStage(n, stale, current))
  {
  }

  /** A restart while a refinement-stage request past twelve messages is in flight
      resets the stage to discovery, and the request's reply then moves it straight
      to validation, skipping refinement. */
  lemma {:induction false} RestartDuringRequest(s: State, p: Pending, content: string)
    requires Valid(s, Some(p)) && p.count > 12 && p.stage == Refinement
    ensures Restart(s).stage == Discovery && Valid(Restart(s), Some(p))
    ensures FinishSend(Restart(s), p, Replied(content)).stage == Validation
  {
  }

  /** Such a request is what sending from a refinement-stage conversation of more than
      twelve messages leaves in flight. */
  lemma {:induction false} RestartAfterSend(s: State, content: string)
    requires Valid(s, None) && Accepts(s) && |s.messages| > 12 && s.stage == Refinement
    ensures var (t, sent) := BeginSend(s);
      && sent.Some?
      && Restart(t).stage == Discovery
      && FinishSend(Restart(t), sent.value.0, Replied(content)).stage == Validation
  {
    var (t, sent) := BeginSend(s);
    BeginSendValid(s, None);
    RestartDuringRequest(t, sent.value.0, content);
  }

  /** Every step keeps the state valid. */
  lemma {:induction false} BeginSendValid(s: State, p: Option<Pending>)
    requires Valid(s, p)
    ensures var (t, sent) := BeginSend(s);
      Valid(t, if sent.Some? then Some(sent.value.0) else p)
  {
  }

  lemma {:induction false} FinishSendValid(s: State, p: Pending, outcome: Outcome)
    requires Valid(s, Some(p))
    ensures Valid(FinishSend(s, p, outcome), None)
    ensures Rank(s.stage) <= Rank(FinishSend(s, p, outcome).stage)
  {
    ContextFields(s.context, p.count, p.userInput);
    StageNeverRegresses(p.count, p.stage, s.stage);
  }

  /** A restart keeps the input and the request in flight, and leaves one assistant
      message, an empty context and the discovery stage. */
  lemma {:induction false} RestartValid(s: State, p: Option<Pending>)
    requires Valid(s, p)
    ensures Valid(Restart(s), p)
    ensures Restart(s).input == s.input && Restart(s).loading == s.loading
    ensures |Restart(s).messages| == 1 && Restart(s).messages[0].role == Assistant
    ensures Restart(s).context == [] && Restart(s).stage == Discovery
  {
  }

  lemma {:induction false} EditInputValid(s: State, p: Option<Pending>, value: string)
    requires Valid(s, p)
    ensures Valid(EditInput(s, value), p)
    ensures EditInput(s, value).input == if s.loading then s.input else value
  {
  }

  // The fallback statement `generateProblemStatement`.

  const Opening := "\n## Problem Statement\n\n**Target Customer**: "
  const CoreLabel := "\n\n**Core Problem**: "
  const SolutionsLabel := "\n\n**Current Solutions**: "
  const Opportunity := "\n\n**Our Opportunity**: Based on our conversation, there's an opportunity to create a "
    + "solution that addresses these unmet needs more effectively.\n\n"
  const InsightsHeading := "### Key Insights from Our Discussion:\n"
  const Tail := "\n    "
  const Undefined := "To be defined"

  /** `context[key] || 'To be defined'`. */
  function Field(ctx: Entries, key: string): string {
    ChatRoute.OrElse(Get(ctx, key), Undefined)
  }

  /** The contents of the user's messages, in order. */
  function UserContents(msgs: seq<Message>): seq<string> {
    if msgs == [] then []
    else (if msgs[0].role == User then [msgs[0].content] else []) + UserContents(msgs[1..])
  }

  /** The decimal numeral of `n`, as template interpolation prints it. */
  function Decimal(n: nat): (r: string)
    ensures r != []
  {
    if n < 10 then [Digit(n)] else Decimal(n / 10) + [Digit(n % 10)]
  }

  function Digit(d: nat): char
    requires d < 10
  {
    ('0' as int + d) as char
  }

  /** The value of a string of decimal digits. */
  function DigitsValue(s: string): int {
    if s == [] then 0 else 10 * DigitsValue(s[..|s| - 1]) + (s[|s| - 1] as int - '0' as int)
  }

  /** The numeral reads back as the number. */
  lemma {:induction false} DecimalValue(n: nat)
    ensures DigitsValue(Decimal(n)) == n
    ensures forall i :: 0 <= i < |Decimal(n)| ==> '0' <= Decimal(n)[i] <= '9'
  {
    if n >= 10 {
      DecimalValue(n / 10);
      var s := Decimal(n);
      assert s[..|s| - 1] == Decimal(n / 10);
    }
  }

  /** The numbered insight lines `${i + 1}. ${content}`. */
  function Numbered(xs: seq<string>): (r: seq<string>)
    ensures |r| == |xs|
    ensures forall i :: 0 <= i < |xs| ==> r[i] == Decimal(i + 1) + ". " + xs[i]
  {
    seq(|xs|, i requires 0 <= i < |xs| => Decimal(i + 1) + ". " + xs[i])
  }

  function Insights(msgs: seq<Message>): string {
    Join(Numbered(UserContents(msgs)), "\n")
  }

  function StatementParts(ctx: Entries, msgs: seq<Message>): seq<string> {
    [Opening, Field(ctx, TargetCustomerKey), CoreLabel, Field(ctx, ProblemDescriptionKey), SolutionsLabel,
     Field(ctx, CurrentSolutionsKey), Opportunity, InsightsHeading, Insights(msgs), Tail]
  }

  function GenerateStatement(ctx: Entries, msgs: seq<Message>): string {
    Concat(StatementParts(ctx, msgs))
  }

  /** Only user messages are listed, in order: a message is listed iff some user
      message has that content, and the list of a conversation is the list of its
      first part followed by that of the rest. */
  lemma {:induction false} UserContentsAppend(a: seq<Message>, b: seq<Message>)
    ensures UserContents(a + b) == UserContents(a) + UserContents(b)
  {
    if a == [] {
      assert a + b == b;
    } else {
      assert (a + b)[1..] == a[1..] + b;
      UserContentsAppend(a[1..], b);
    }
  }

  lemma {:induction false} UserContentsMembership(msgs: seq<Message>, x: string)
    ensures x in UserContents(msgs) <==> exists i :: 0 <= i < |msgs| && msgs[i] == Message(User, x)
  {
    if msgs != [] {
      UserContentsMembership(msgs[1..], x);
      if exists i :: 0 <= i < |msgs[1..]| && msgs[1..][i] == Message(User, x) {
        var i :| 0 <= i < |msgs[1..]| && msgs[1..][i] == Message(User, x);
        assert msgs[i + 1] == Message(User, x);
      }
      if exists i :: 0 <= i < |msgs| && msgs[i] == Message(User, x) {
        var i :| 0 <= i < |msgs| && msgs[i] == Message(User, x);
        if i > 0 {
          assert msgs[1..][i - 1] == Message(User, x);
        }
      }
    }
  }

  /** The statement opens with the target customer field, or 'To be defined' when
      it is missing or empty. */
  lemma {:induction false} StatementTargetCustomer(ctx: Entries, msgs: seq<Message>)
    ensures Opening + Field(ctx, TargetCustomerKey) + CoreLabel <= GenerateStatement(ctx, msgs)
  {
    ConcatHead(StatementParts(ctx, msgs));
  }

  /** The core problem field, or 'To be defined', sits between its label and the next one. */
  lemma {:induction false} StatementProblem(ctx: Entries, msgs: seq<Message>)
    ensures Contains(GenerateStatement(ctx, msgs), CoreLabel + Field(ctx, ProblemDescriptionKey) + SolutionsLabel)
  {
    ConcatWindow(StatementParts(ctx, msgs), 2);
  }

  /** The current solutions field, or 'To be defined', precedes the opportunity paragraph. */
  lemma {:induction false} StatementSolutions(ctx: Entries, msgs: seq<Message>)
    ensures Contains(GenerateStatement(ctx, msgs), SolutionsLabel + Field(ctx, CurrentSolutionsKey) + Opportunity)
  {
    ConcatWindow(StatementParts(ctx, msgs), 4);
  }

  /** The statement ends with the insights heading, the numbered user messages and
      the closing whitespace, which it is not trimmed of. */
  lemma {:induction false} StatementInsights(ctx: Entries, msgs: seq<Message>)
    ensures EndsWith(GenerateStatement(ctx, msgs), InsightsHeading + Insights(msgs) + Tail)
  {
    ConcatTail(StatementParts(ctx, msgs));
  }

  /** When no user message spans lines, the insight block's lines are exactly the
      user messages, numbered from 1 in order. */
  lemma {:induction false} InsightLines(msgs: seq<Message>)
    requires forall x :: x in UserContents(msgs) ==> '\n' !in x
    ensures NonEmpty(Split(Insights(msgs), '\n')) == Numbered(UserContents(msgs))
  {
    var xs := UserContents(msgs);
    var lines := Numbered(xs);
    forall k | 0 <= k < |lines| ensures '\n' !in lines[k] && lines[k] != "" {
      DecimalValue(k + 1);
      var d := Decimal(k + 1);
      assert xs[k] in xs;
      assert lines[k] == d + ". " + xs[k];
      assert forall j :: 0 <= j < |d| ==> lines[k][j] == d[j];
      assert lines[k][|d|] == '.' && lines[k][|d| + 1] == ' ';
      assert forall j :: |d| + 2 <= j < |lines[k]| ==> lines[k][j] == xs[k][j - |d| - 2];
    }
    assert "\n" == ['\n'];
    SplitJoin(lines, '\n');
  }

  /** After a restart the statement has every field undefined and no insights. */
  lemma {:induction false} RestartStatement(s: State)
    ensures Field(Restart(s).context, TargetCustomerKey) == Undefined
    ensures Field(Restart(s).context, ProblemDescriptionKey) == Undefined
    ensures Field(Restart(s).context, CurrentSolutionsKey) == Undefined
    ensures Insights(Restart(s).messages) == ""
  {
    var r := Restart(s);
    assert r.messages[1..] == [];
    assert UserContents(r.messages) == [];
    assert Numbered([]) == [];
  }

  /** The body `saveProblemStatement` posts. */
  datatype SaveRequest = SaveRequest(
    typeId: string,
    status: Status,
    statement: string,
    conversation: seq<Message>,
    context: Entries,
    moduleId: ModuleId,
    isFoundational: bool,
    ventureId: string)

  /** Whether the Save & Complete button is shown. */
  predicate CanSave(s: State) {
    |s.messages| > 4
  }

  /** The component, with the suspended send it may be waiting on. */
  class Conversation {
    const ventureId: string
    var messages: seq<Message>
    var input: string
    var isLoading: bool
    var context: Entries
    var stage: Stage
    /** The `sendMessage` call awaiting its outcome, if any. */
    var inFlight: Option<Pending>

    function Current(): State
      reads this
    {
      State(messages, input, isLoading, context, stage)
    }

    predicate Ready()
      reads this
    {
      Valid(Current(), inFlight)
    }

    constructor(ventureId: string)
      ensures this.ventureId == ventureId && Current() == Initial() && inFlight == None && Ready()
    {
      this.ventureId := ventureId;
      messages := [Message(Assistant, Greeting)];
      input := "";
      isLoading := false;
      context := [];
      stage := Discovery;
      inFlight := None;
    }

    method SetInput(value: string)
      modifies this`input
      ensures Current() == EditInput(old(Current()), value)
    {
      if !isLoading {
        input := value;
      }
    }

    /** `sendMessage` up to the request it posts. */
    method SendMessage() returns (request: Option<ChatRequest>)
      requires Ready()
      modifies this
      ensures var (t, sent) := BeginSend(old(Current()));
        && Current() == t
        && inFlight == (if sent.Some? then Some(sent.value.0) else old(inFlight))
        && request == (if sent.Some? then Some(sent.value.1) else None)
      ensures Ready()
    {
      ghost var s := Current();
      ghost var step := BeginSend(s);
      BeginSendValid(s, inFlight);
      request := None;
      if Trim(input) == "" || isLoading {
        assert step == (s, None);
        return;
      }
      var userMessage := Message(User, input);
      var sent := messages + [userMessage];
      assert step.1 == Some((Pending(|messages|, input, stage), ChatRequest(sent, RequestContext(s))));
      request := Some(ChatRequest(sent, RequestContext(Current())));
      inFlight := Some(Pending(|messages|, input, stage));
      messages := sent;
      input := "";
      isLoading := true;
      assert Current() == step.0;
    }

    /** The rest of `sendMessage`, once the outcome of its request is in. */
    method ReceiveOutcome(outcome: Outcome)
      requires Ready() && inFlight.Some?
      modifies this
      ensures Current() == FinishSend(old(Current()), old(inFlight).value, outcome) && inFlight == None
      ensures Ready()
    {
      FinishSendValid(Current(), inFlight.value, outcome);
      var p := inFlight.value;
      match outcome {
        case Replied(content) =>
          messages := messages + [Message(Assistant, content)];
          UpdateContextStep(p);
        case Failed(message) =>
          var text := if Contains(message, ApiKeyMention) then KeyHelp else RetryHelp;
          messages := messages + [Message(Assistant, text)];
      }
      isLoading := false;
      inFlight := None;
    }

    /** `updateContext`, with the count and stage its closure captured. */
    method UpdateContextStep(p: Pending)
      modifies this`context, this`stage
      ensures context == UpdateContext(old(context), p.count, p.userInput)
      ensures stage == NextStage(p.count, p.stage, old(stage))
    {
      if p.count < 3 {
        context := Put(context, TargetCustomerKey, p.userInput);
      } else if p.count < 5 {
        context := Put(context, ProblemDescriptionKey, p.userInput);
      } else if p.count < 7 {
        context := Put(context, CurrentSolutionsKey, p.userInput);
      }
      if p.count > 6 && p.stage == Discovery {
        stage := Refinement;
      } else if p.count > 12 && p.stage == Refinement {
        stage := Validation;
      }
    }

    method RestartConversation()
      requires Ready()
      modifies this`messages, this`context, this`stage
      ensures Current() == Restart(old(Current())) && Ready()
    {
      RestartValid(Current(), inFlight);
      messages := [Message(Assistant, RestartGreeting)];
      context := [];
      stage := Discovery;
    }

    /** Pressing Save & Complete: the request posted, if the button is shown. The
        component's state does not change. */
    method Save() returns (request: Option<SaveRequest>)
      ensures CanSave(Current()) <==> request.Some?
      ensures request.Some? ==> request.value == SaveRequest(TypeId(ProblemStatement), Complete,
        GenerateStatement(context, messages), messages, context, Problem, true, ventureId)
    {
      request := None;
      if |messages| > 4 {
        request := Some(SaveRequest(TypeId(ProblemStatement), Complete, GenerateStatement(context, messages),
          messages, context, Problem, true, ventureId));
      }
    }
  }
}
