# Startup foundation builder — a Dafny model of its core

The application guides a founder through "journey modules" that each produce an
artifact. The first module is the foundational problem statement. The customer
persona and three modules that have no form yet come after it. This project
models that core:

- **Question banks** (`Questions`, `ProblemStatement`, `CustomerPersona`):
  - the two question banks;
  - their follow-up rules, written as data (`followUp` in the source is a
    closure);
  - the problem-statement template;
  - the persona record (`ProblemStatement.GenerateProblemStatement`,
    `CustomerPersona.GeneratePersona`).
- **Persona questionnaire** (`PersonaSession`):
  - cursor, answers, added follow-ups, multi-select toggling and the save
    requests;
  - a `Session` class whose handlers are proved equal to pure step functions.
- **Refinement panel's analysis parser** (`Refinement.ParseAnalysis`): a loop
  over the lines, proved against a per-section specification `Items`.
- **Chat endpoint** (`ChatRoute`):
  - `BuildSystemPrompt`, a loop over the previous answers, proved against
    `SystemPrompt`;
  - the `POST` handler's three responses (`Post`).
- **AI problem-statement chat** (`ChatSession`):
  - `sendMessage` in its two halves, before and after the awaited request;
  - the context and stage updates, restart, the fallback statement and the save
    request;
  - a `Conversation` class holding the component state.
- **Dashboard** (`Home`):
  - the module table, `canAccessModule`, card clicks, `handleModuleComplete`;
  - the artifact handed to an opened module.
- **Artifact library** (`ArtifactsPage`): the loading flag, selection and
  deletion.

The shared helper modules are:

- `Text`: ASCII `trim`, `toLowerCase`, `includes`, `split` and `join`;
- `Records`: a JavaScript object as an insertion-ordered list of entries;
- `Artifacts`: artifact types and save-request fields;
- `Options`.

Network calls, the model service and the database are not modelled. Each request's
outcome is a parameter of the step that receives it: `saved`, `FetchOutcome`,
`DeleteOutcome`, `Outcome` and `ServiceOutcome`.

Behaviour of the code that the model reproduces:

- Follow-up questions are appended after the whole bank, in the order they were
  triggered. They are not inserted after the question that triggered them.
- Answering the last question leaves the cursor on it and starts the save.
- "Save Draft" posts the same request as completion, with status `complete`. A
  successful response marks the questionnaire complete.
- A restart does not cancel a chat request in flight. When that request's reply
  arrives, it applies the stage rule using the stage from before the restart.
  So the stage can jump from discovery straight to validation
  (`ChatSession.RestartDuringRequest`).
- The dashboard's problem-statement card opens `ProblemStatementModule`, which
  `app/page.tsx:5` imports. The dashboard never uses the AI chat module.

## Model

| member | source | states |
|---|---|---|
| Questions.EvaluateInTargets | app/lib/questions/problem-statement.ts:6 | a follow-up rule only ever yields one of the questions it names |
| ProblemStatement.BankIds | app/lib/questions/problem-statement.ts:11-87 | the bank is the six questions in order |
| ProblemStatement.BankDistinct | app/lib/questions/problem-statement.ts:11-87 | no two bank questions share an id |
| ProblemStatement.BankTargets | app/lib/questions/problem-statement.ts:17-79 | the only follow-ups are business size, frequency, pain points and budget, in that order |
| ProblemStatement.BankWellFormed | app/lib/questions/problem-statement.ts:11-87 | no follow-up reuses a bank id or has a follow-up of its own |
| ProblemStatement.TargetCustomerFollowUp | app/lib/questions/problem-statement.ts:17-27 | business size is asked iff the lower-cased answer contains "business" |
| ProblemStatement.UnconditionalFollowUps | app/lib/questions/problem-statement.ts:34-51 | frequency and pain points are asked for every answer |
| ProblemStatement.UrgencyFollowUp | app/lib/questions/problem-statement.ts:69-79 | budget is asked iff the answer contains "Critical" or "High" |
| ProblemStatement.UrgencyOptionsFollowUp | app/lib/questions/problem-statement.ts:63-79 | of the four urgency options exactly the first two lead to the budget question |
| ProblemStatement.GenerateShape | app/lib/questions/problem-statement.ts:89-110 | trimming removes only the template's leading newline and trailing indentation |
| ProblemStatement.TargetCustomerVerbatim | app/lib/questions/problem-statement.ts:90-107 | for every answer map, the statement opens with the heading and the target customer as shown (verbatim, or "undefined" when absent), and ends with the opportunity sentence naming it again |
| ProblemStatement.PainPoints | app/lib/questions/problem-statement.ts:99-107 | the pain-points answer is shown when non-empty; otherwise "Not specified" and "their current frustrations" |
| CustomerPersona.BankIds | app/lib/questions/customer-persona.ts:3-110 | the bank is the thirteen questions in order |
| CustomerPersona.BankDistinct | app/lib/questions/customer-persona.ts:3-110 | no two bank questions share an id |
| CustomerPersona.BankTargets | app/lib/questions/customer-persona.ts:9-48 | the only follow-ups are the caveat and the two demographics questions |
| CustomerPersona.BankWellFormed | app/lib/questions/customer-persona.ts:3-110 | no follow-up reuses a bank id or has a follow-up of its own |
| CustomerPersona.TalkedFollowUp | app/lib/questions/customer-persona.ts:9-19 | the caveat is asked iff the answer contains "Not yet" or "Planning" |
| CustomerPersona.TalkedOptionsFollowUp | app/lib/questions/customer-persona.ts:8-19 | the two "Yes" options skip the caveat and the other two ask it |
| CustomerPersona.VentureFollowUp | app/lib/questions/customer-persona.ts:32-48 | consumer demographics iff the answer contains "B2C", business demographics otherwise |
| CustomerPersona.VentureOptionsFollowUp | app/lib/questions/customer-persona.ts:31-48 | "B2C" gives consumer demographics; "B2B" and "Both" give business demographics |
| CustomerPersona.ProfileChoice | app/lib/questions/customer-persona.ts:116 | the profile is the first non-empty of the consumer and business demographics, else "" |
| CustomerPersona.ToolsUsed | app/lib/questions/customer-persona.ts:121 | no tools answer gives []; otherwise one trimmed entry per comma-separated piece |
| CustomerPersona.LineLists | app/lib/questions/customer-persona.ts:125-129 | the four list fields keep exactly the non-blank lines of their answers, untrimmed |
| CustomerPersona.LinesInOrder | app/lib/questions/customer-persona.ts:125-129 | non-blank lines survive in their relative order |
| CustomerPersona.QuoteList | app/lib/questions/customer-persona.ts:130 | at most one quote, present exactly when the quote answer is non-empty |
| CustomerPersona.MotivationsRoundTrip | app/lib/questions/customer-persona.ts:131 | joining the motivations with "," gives the answer back; there is one more piece than commas |
| CustomerPersona.NoMotivations | app/lib/questions/customer-persona.ts:131 | no motivations answer gives [] |
| PersonaSession.Initial | app/components/modules/CustomerPersonaModule.tsx:28-33 | the session starts valid on the first question, with the stored answers and no follow-ups |
| PersonaSession.AllQuestionsOrder | app/components/modules/CustomerPersonaModule.tsx:36 | the question list is the bank followed by the added follow-ups |
| PersonaSession.AllQuestionsDistinct | app/components/modules/CustomerPersonaModule.tsx:36-64 | in a valid session no two listed questions share an id |
| PersonaSession.SubmitEmpty | app/components/modules/CustomerPersonaModule.tsx:11-13 | an empty answer is rejected and changes nothing |
| PersonaSession.SubmitRecords | app/components/modules/CustomerPersonaModule.tsx:57-58 | the answer is stored under the current question's id, and every other answer is kept |
| PersonaSession.SubmitAdvances | app/components/modules/CustomerPersonaModule.tsx:69-73 | the cursor moves on iff it is short of the last question; otherwise it stays and the completion request is sent |
| PersonaSession.SubmitFollowUps | app/components/modules/CustomerPersonaModule.tsx:61-66 | at most the rule's follow-up is appended, and only if no added question has its id |
| PersonaSession.FollowUpsNotWithdrawn | app/components/modules/CustomerPersonaModule.tsx:61-66 | any answer to the venture-type question keeps every added follow-up and leaves the session holding the consumer demographics question if the answer contains "B2C", else the business one, appended when not already added |
| PersonaSession.AddFollowUpKeeps | app/components/modules/CustomerPersonaModule.tsx:61-66 | appending only a follow-up whose id is not yet added keeps the added ids distinct and never drops one |
| PersonaSession.SubmitValid | app/components/modules/CustomerPersonaModule.tsx:56-74 | submitting keeps the cursor in range and the ids distinct |
| PersonaSession.GoBackStep | app/components/modules/CustomerPersonaModule.tsx:106-110 | Back decrements the cursor iff it is above zero, and nothing else changes |
| PersonaSession.SelectionRoundTrip | app/components/modules/CustomerPersonaModule.tsx:211-216 | checking appends the option to the selection; unchecking removes every copy of it |
| PersonaSession.ToggleStep | app/components/modules/CustomerPersonaModule.tsx:211-216 | a checkbox changes only the current question's answer, to the joined new selection |
| PersonaSession.MotivationOptionsToggle | app/lib/questions/customer-persona.ts:90 | the motivation options are non-empty and comma-free, so toggling round-trips on them |
| PersonaSession.SaveDraftRequest | app/components/modules/CustomerPersonaModule.tsx:253 | Save Draft posts the completion request for the current answers and completes on success |
| PersonaSession.SubmitLastIsSaveDraft | app/components/modules/CustomerPersonaModule.tsx:69-99 | a submit posts a request iff it is on the last question of the list before the submit, and there it is exactly Save Draft on the state with the answer recorded; a draft saved anywhere keeps the session valid and the cursor in place |
| PersonaSession.Session.constructor | app/components/modules/CustomerPersonaModule.tsx:28-33 | the component state starts as the initial session |
| PersonaSession.Session.OnSubmit | app/components/modules/CustomerPersonaModule.tsx:56-74 | the new state and request are those of the submit step, and the state stays valid |
| PersonaSession.Session.HandleComplete | app/components/modules/CustomerPersonaModule.tsx:76-104 | posts the persona request for the final answers; completes only when the save succeeds |
| PersonaSession.Session.OnGoBack | app/components/modules/CustomerPersonaModule.tsx:106-110 | the new state is the step-back of the old one |
| PersonaSession.Session.OnToggle | app/components/modules/CustomerPersonaModule.tsx:211-216 | the new state is the toggle of the old one |
| PersonaSession.Session.OnSaveDraft | app/components/modules/CustomerPersonaModule.tsx:253 | the new state and request are those of the save-draft step |
| Refinement.HeaderOf | app/components/AIRefinementPanel.tsx:54-61 | a line names the first section whose keyword its lower-cased text contains, and no section if it contains none |
| Refinement.ParseAnalysis | app/components/AIRefinementPanel.tsx:41-68 | each returned list is the specification `Items` of the line split |
| Refinement.ItemsMembership | app/components/AIRefinementPanel.tsx:53-65 | an item is in a section iff some non-header, non-blank line trims to it and the latest header before that line names the section |
| Refinement.ItemSource | app/components/AIRefinementPanel.tsx:62-63 | every recorded item comes from such a line |
| Refinement.ItemRecorded | app/components/AIRefinementPanel.tsx:62-63 | every such line is recorded, trimmed |
| Refinement.ItemsPrefix | app/components/AIRefinementPanel.tsx:53-65 | items keep line order: the items of a prefix of the lines are a prefix of the items |
| Refinement.NoHeaderNoItems | app/components/AIRefinementPanel.tsx:51-62 | lines before any header are dropped: with no header nothing is recorded |
| Refinement.ItemsBound | app/components/AIRefinementPanel.tsx:53-65 | each line is recorded at most once, in one section |
| Refinement.ItemWellFormed | app/components/AIRefinementPanel.tsx:62-63 | items are non-empty, trimmed and free of the four keywords |
| ChatRoute.BuildSystemPrompt | app/api/ai/chat/route.ts:43-76 | the loop builds exactly the specification `SystemPrompt` |
| ChatRoute.EntryLinesAppend | app/api/ai/chat/route.ts:61-63 | the entry lines of two lists, one after the other, are the lines of each |
| ChatRoute.EntryLinesSingle | app/api/ai/chat/route.ts:62 | one entry gives one `key: value` line |
| ChatRoute.PromptModuleAndStage | app/api/ai/chat/route.ts:55-56 | the prompt holds the module and stage lines, which default to "Problem Statement" and "initial" |
| ChatRoute.PromptContextBlock | app/api/ai/chat/route.ts:59-64 | the context header and entry lines appear iff previous answers were sent, even an empty object |
| ChatRoute.PromptEndsWithGuidelines | app/api/ai/chat/route.ts:66-75 | the prompt always ends with the guidelines |
| ChatRoute.KeyErrorMentionsKey | app/api/ai/chat/route.ts:14 | the missing-key error mentions "API key" |
| ChatRoute.MissingKey | app/api/ai/chat/route.ts:12-17 | without a key: status 500, an error naming the key, and no model call |
| ChatRoute.WithKey | app/api/ai/chat/route.ts:20-40 | with a key: the model is called with the system prompt; a reply gives 200; an error gives 500 with its message, or a fixed one when the message is empty |
| ChatSession.InitialValid | app/components/modules/AIProblemStatementModule.tsx:24-35 | the chat starts valid, with one greeting, an empty context and the discovery stage |
| ChatSession.SendGuard | app/components/modules/AIProblemStatementModule.tsx:43 | a send goes ahead iff the input is non-blank and nothing is in flight; otherwise nothing changes |
| ChatSession.SendPosts | app/components/modules/AIProblemStatementModule.tsx:45-71 | the user message is shown at once, the input cleared and loading set; the whole conversation is posted with stage and context |
| ChatSession.SendAddsTwo | app/components/modules/AIProblemStatementModule.tsx:52-99 | a completed send adds the user's message and then the reply |
| ChatSession.ReplyCases | app/components/modules/AIProblemStatementModule.tsx:76-99 | a reply is shown verbatim; an error shows the API-key hint iff its message mentions "API key", the retry message otherwise |
| ChatSession.MissingKeyShown | app/components/modules/AIProblemStatementModule.tsx:94-96 | the endpoint's missing-key answer makes the chat show the API-key hint |
| ChatSession.ContextByCount | app/components/modules/AIProblemStatementModule.tsx:105-113 | the field set depends on the message count captured at send (<3, <5, <7, none); nothing else changes and key order is kept |
| ChatSession.ContextFields | app/components/modules/AIProblemStatementModule.tsx:107-113 | the context holds only the three fields, each at most once |
| ChatSession.StageThresholds | app/components/modules/AIProblemStatementModule.tsx:116-120 | discovery gives way to refinement after more than 6 messages, refinement to validation after more than 12 |
| ChatSession.StageOneStep | app/components/modules/AIProblemStatementModule.tsx:116-120 | without a restart a reply moves the stage at most one step forward |
| ChatSession.StageNeverRegresses | app/components/modules/AIProblemStatementModule.tsx:116-120 | the stage never goes back |
| ChatSession.RestartDuringRequest | app/components/modules/AIProblemStatementModule.tsx:116-120 | for every request in flight past twelve messages at the refinement stage, a restart resets the stage to discovery and keeps the state valid, and that request's reply then moves it straight to validation |
| ChatSession.RestartAfterSend | app/components/modules/AIProblemStatementModule.tsx:42-71 | sending from any valid refinement-stage conversation of more than twelve messages leaves such a request in flight, so the jump happens on a reachable run |
| ChatSession.BeginSendValid | app/components/modules/AIProblemStatementModule.tsx:42-55 | starting a send keeps the state valid and records the request in flight |
| ChatSession.FinishSendValid | app/components/modules/AIProblemStatementModule.tsx:73-102 | receiving the outcome keeps the state valid, clears loading and never lowers the stage |
| ChatSession.RestartValid | app/components/modules/AIProblemStatementModule.tsx:176-185 | restart leaves one greeting, an empty context and discovery; input and loading are kept |
| ChatSession.EditInputValid | app/components/modules/AIProblemStatementModule.tsx:278-282 | typing changes the input only while nothing is in flight |
| ChatSession.DecimalValue | app/components/modules/AIProblemStatementModule.tsx:139 | the item number is written in decimal digits that read back as the number |
| ChatSession.UserContentsAppend | app/components/modules/AIProblemStatementModule.tsx:137-139 | the user messages of a concatenation are those of each part |
| ChatSession.UserContentsMembership | app/components/modules/AIProblemStatementModule.tsx:137-138 | a content is listed iff some user message has it |
| ChatSession.StatementTargetCustomer | app/components/modules/AIProblemStatementModule.tsx:125-128 | the statement opens with the target customer, or "To be defined" |
| ChatSession.StatementProblem | app/components/modules/AIProblemStatementModule.tsx:130 | it holds the core problem, or "To be defined" |
| ChatSession.StatementSolutions | app/components/modules/AIProblemStatementModule.tsx:132 | it holds the current solutions, or "To be defined" |
| ChatSession.StatementInsights | app/components/modules/AIProblemStatementModule.tsx:136-141 | it ends with the insights heading, the numbered user messages and the trailing indentation |
| ChatSession.InsightLines | app/components/modules/AIProblemStatementModule.tsx:137-140 | for single-line messages, the insight lines are exactly the numbered user messages |
| ChatSession.RestartStatement | app/components/modules/AIProblemStatementModule.tsx:123-141 | after a restart every field reads "To be defined" and there are no insights |
| ChatSession.Conversation.constructor | app/components/modules/AIProblemStatementModule.tsx:24-35 | the component state starts as the initial chat |
| ChatSession.Conversation.SetInput | app/components/modules/AIProblemStatementModule.tsx:278 | the new state is the edit step of the old one |
| ChatSession.Conversation.SendMessage | app/components/modules/AIProblemStatementModule.tsx:42-71 | the new state and posted request are those of `BeginSend`; the request in flight is recorded |
| ChatSession.Conversation.ReceiveOutcome | app/components/modules/AIProblemStatementModule.tsx:73-102 | the new state is `FinishSend` of the current state with the recorded request; nothing stays in flight |
| ChatSession.Conversation.UpdateContextStep | app/components/modules/AIProblemStatementModule.tsx:105-121 | context and stage are updated as by `updateContext` |
| ChatSession.Conversation.RestartConversation | app/components/modules/AIProblemStatementModule.tsx:176-185 | the new state is the restart of the old one |
| ChatSession.Conversation.Save | app/components/modules/AIProblemStatementModule.tsx:146-207 | a save request exists iff there are more than four messages; it carries the generated statement, the conversation, the context and the problem-statement type as complete and foundational |
| Home.Find | app/page.tsx:63 | the found module is in the table with the id; none is found only when no module has it |
| Home.Foundational | app/page.tsx:67 | exactly the foundational modules are kept |
| Home.AllCompleted | app/page.tsx:68-70 | true iff every module's id is among the completed |
| Home.OnlyFoundational | app/page.tsx:8-49 | the problem statement is the only foundational module |
| Home.UnknownInaccessible | app/page.tsx:62-64 | an id not in the table is never accessible |
| Home.FoundationalAccessible | app/page.tsx:62-73 | the problem statement is always accessible |
| Home.NonFoundationalAccess | app/page.tsx:66-72 | any other module is accessible iff the problem statement is completed |
| Home.AccessMonotone | app/page.tsx:62-73 | completing more never removes access |
| Home.FirstOfType | app/page.tsx:84 | the artifact handed over is the first of the module's type; none only when no artifact has it |
| Home.NoFormNeverOpens | app/page.tsx:107-112 | the three modules without a form never open |
| Home.PersonaLocked | app/page.tsx:106-112 | the persona card does not open before the problem statement is completed |
| Home.ClickOpens | app/page.tsx:112 | a click opens the module iff it is accessible and has a form; otherwise nothing changes |
| Home.CompleteStep | app/page.tsx:56-60 | completion appends the artifact and its type and returns to the dashboard; after a problem statement every module is accessible |
| Home.StepsValid | app/page.tsx:75-87 | every step keeps the open module openable, and an open module is rendered |
| Home.RenderedArtifact | app/page.tsx:84 | an open module is given the first stored artifact of its type |
| Home.Dashboard.constructor | app/page.tsx:52-54 | nothing is open or completed at first |
| Home.Dashboard.HandleModuleComplete | app/page.tsx:56-60 | the new state is the completion step of the old one |
| Home.Dashboard.OnCardClick | app/page.tsx:103-112 | the new state is the click step of the old one |
| ArtifactsPage.NamesCoverTypes | app/artifacts/page.tsx:14-20 | every artifact type is listed, has a display name, and no two types share one |
| ArtifactsPage.Remove | app/artifacts/page.tsx:57 | the kept artifacts are exactly those whose id differs |
| ArtifactsPage.RemoveAppend | app/artifacts/page.tsx:57 | removal keeps the order of what is left |
| ArtifactsPage.RemoveAbsent | app/artifacts/page.tsx:57 | a list without the id is unchanged |
| ArtifactsPage.FetchEndsLoading | app/artifacts/page.tsx:31-46 | the fetch always ends loading; success replaces the list and failure keeps it |
| ArtifactsPage.DeleteUnchanged | app/artifacts/page.tsx:48-65 | a declined confirmation or a failed request changes nothing |
| ArtifactsPage.DeleteSucceeded | app/artifacts/page.tsx:56-60 | a successful delete drops exactly the id's artifacts, and closes the open one iff it is the deleted one |
| ArtifactsPage.StepsValid | app/artifacts/page.tsx:48-65 | selection and deletion keep the open artifact in the list |
| ArtifactsPage.Page.constructor | app/artifacts/page.tsx:23-25 | the page starts empty and loading |
| ArtifactsPage.Page.FetchArtifacts | app/artifacts/page.tsx:31-46 | the new state is the fetch step of the old one, and loading is over |
| ArtifactsPage.Page.SelectArtifact | app/artifacts/page.tsx:107 | the new state is the select step of the old one |
| ArtifactsPage.Page.DeleteArtifact | app/artifacts/page.tsx:48-65 | the new state is the delete step of the old one |
| Records.GetPut | app/components/modules/AIProblemStatementModule.tsx:108-112 | after `{...prev, key: v}` the key reads v and every other key reads as before |
| Records.PutKeys | app/components/modules/AIProblemStatementModule.tsx:108-112 | an existing key keeps its position; a new key is appended |
| Records.PutUnique | app/components/modules/AIProblemStatementModule.tsx:108-112 | spreading in a key never duplicates one |

## Left out

- Rendering: JSX, styling, icons, scrolling, the progress display, the completion
  screen, and the persona caveat banner (`showCaveat`).
- The form's reset effect (`CustomerPersonaModule.tsx:46-48`), which refills the
  form field with `answers[id] || ''` whenever the answers or the cursor change.
  That field is what `onSubmit` receives. In `PersonaSession.Submit` and
  `Session.OnSubmit` the `answer` is a free parameter instead. The model does not
  tie it to `answers[id]`: not for a multiselect, whose checkboxes reach the
  submitted answer only through this reset, and not for the prefilled answer
  that is resubmitted after Back.
- `ProblemStatementModule` is not part of this model. The dashboard's
  `ProblemStatementForm` only names it.
- The artifact API routes and their database (`app/api/artifacts/...`). The
  analyze route and the refinement panel's request and rendering are also left
  out; only its `parseAnalysis` is modelled.
- PersonaSession.Initial: the saved answers are a parameter. In the source they
  come from `existingArtifact?.content?.answers`. The artifact handed over by
  `onComplete` is the record the artifact route returns, and that route stores
  `content` as a JSON string (`app/api/artifacts/route.ts:62,71`). So for that
  artifact the answers are `undefined`, and the session starts empty, which is
  `Initial(None)`. The model does not derive this from the stored record.
- The request outcome is a single parameter. `fetch`, `response.json()` and the
  model service are not modelled. A not-ok response and a thrown error are one
  failure case wherever the source treats them alike.
- The model name, token limit and temperature sent to the model service. The
  message list forwarded to the service and the `usage` field of the reply are
  also not modelled.
- Parse errors of the chat request body, and a body without `context`, are not
  modelled. Both end in the handler's catch branch with a host-specific message.
- `ChatRoute.Post`: what `Object.entries` gives and how `${value}` renders hold
  only for string values. The context only ever holds strings.
- Generated ids and timestamps on messages. `console` logging.
- JSON serialisation of the save requests: a request is the record of its
  fields. The Blob download of the library page (`downloadArtifact`) is also
  left out.
- The `onComplete` callback is not modelled as a call into the dashboard. Its
  effect is `Home.Dashboard.HandleModuleComplete`, with the saved artifact as
  its argument.
- `trim`, `toLowerCase` and `includes` are modelled on ASCII only. Unicode
  whitespace and case mapping are not.
- React update batching: each handler is one atomic step. `sendMessage` is two
  steps, before and after the request. Only one request is in flight, because
  the input and button are disabled while loading.
- PersonaSession.Submit and PersonaSession.Toggle, and the `Session` methods
  `OnSubmit` and `OnToggle`, are also defined once the session is complete.
  In the source a complete session renders only the completion screen
  (`CustomerPersonaModule.tsx:112`), so these steps do not happen there.
- ArtifactsPage.FetchEndsLoading: requires the page to be loading. The fetch
  runs only once, on mount, while the page is still loading.
- ArtifactsPage.Select: the click passes the clicked list item, and the model
  identifies it by its position in the list.
