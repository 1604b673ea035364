/** The customer-persona question bank and the persona record built from its
    answers (app/lib/questions/customer-persona.ts). */
module CustomerPersona {
  import opened Options
  import opened Text
  import opened Questions

  const CaveatAcknowledgment := Question("caveat_acknowledgment",
    "Important: This persona is a starting point. Real customer interviews are essential for validation. "
    + "Do you understand this is a hypothesis to be tested?", Select, ["Yes, I understand"], NoFollowUp)

  const B2cDemographics := Question("b2c_demographics",
    "What are their key demographics? (age, gender, location, income)", TextArea, [], NoFollowUp)

  const B2bDemographics := Question("b2b_demographics", "What is their role and company profile?", TextArea, [],
    NoFollowUp)

  const TalkedOptions := ["Yes, extensively", "Yes, a few", "Not yet", "Planning to soon"]

  const VentureOptions := ["B2C (Business to Consumer)", "B2B (Business to Business)", "Both"]

  const TalkedToUsers := Question("talked_to_users", "Have you already talked to real users or potential customers?",
    Select, TalkedOptions, WhenContainsAny(["Not yet", "Planning"], CaveatAcknowledgment))

  const PersonaName := Question("persona_name",
    "Give this customer a memorable nickname that captures who they are", TextLine, [], NoFollowUp)

  const VentureType := Question("venture_type", "Is your venture B2C or B2B?", Select, VentureOptions,
    ContainsElse("B2C", B2cDemographics, B2bDemographics))

  const JobDescription := Question("job_description",
    "What do they do for a living? What are their key responsibilities?", TextArea, [], NoFollowUp)

  const TaskFrequency := Question("task_frequency", "How often do they perform the task you're solving for?", Select,
    ["Multiple times daily", "Daily", "Weekly", "Monthly", "Occasionally"], NoFollowUp)

  const CurrentTools := Question("current_tools",
    "What tools or processes are they currently using to get the job done?", TextArea, [], NoFollowUp)

  const TaskContext := Question("task_context", "Describe what they do before, during, and after the task",
    TextArea, [], NoFollowUp)

  const FunctionalNeeds := Question("functional_needs",
    "What do they need the solution to do well? What features are must-haves?", TextArea, [], NoFollowUp)

  const EmotionalNeeds := Question("emotional_needs",
    "How do they want to feel when using a solution? What emotional needs are at play?", TextArea, [], NoFollowUp)

  const Motivations := Question("motivations", "What motivates them most?", MultiSelect,
    ["Efficiency", "Recognition", "Security", "Innovation", "Cost savings", "Growth", "Reputation",
     "Avoiding failure"], NoFollowUp)

  const Frustrations := Question("frustrations", "What frustrates them most about their current solutions?",
    TextArea, [], NoFollowUp)

  const Constraints := Question("constraints", "What holds them back from trying new solutions?", TextArea, [],
    NoFollowUp)

  const MemorableQuote := Question("memorable_quote",
    "What's a quote that captures their perspective? (from interviews or imagined)", TextArea, [], NoFollowUp)

  /** `customerPersonaQuestions`. */
  const Bank: seq<Question> := [TalkedToUsers, PersonaName, VentureType, JobDescription, TaskFrequency,
    CurrentTools, TaskContext, FunctionalNeeds, EmotionalNeeds, Motivations, Frustrations, Constraints,
    MemorableQuote]

  /** The bank holds thirteen questions, from talked_to_users to memorable_quote. */
  lemma BankIds()
    ensures |Bank| == 13 && Bank[0].id == "talked_to_users" && Bank[12].id == "memorable_quote"
    ensures Ids(Bank) == ["talked_to_users", "persona_name", "venture_type", "job_description", "task_frequency",
      "current_tools", "task_context", "functional_needs", "emotional_needs", "motivations", "frustrations",
      "constraints", "memorable_quote"]
  {
  }

  /** No two bank questions share an id. */
  lemma BankDistinct()
    ensures DistinctIds(Bank)
  {
    DistinctBySignature(Bank);
  }

  /** The bank as two runs of six and the closing quote question. */
  lemma BankHalves()
    ensures Bank == [TalkedToUsers, PersonaName, VentureType, JobDescription, TaskFrequency, CurrentTools]
      + [TaskContext, FunctionalNeeds, EmotionalNeeds, Motivations, Frustrations, Constraints] + [MemorableQuote]
  {
  }

  /** The follow-ups are the caveat and the two demographics questions, in bank order. */
  lemma BankTargets()
    ensures AllTargets(Bank) == [CaveatAcknowledgment, B2cDemographics, B2bDemographics]
  {
    var front := [TalkedToUsers, PersonaName, VentureType, JobDescription, TaskFrequency, CurrentTools];
    var back := [TaskContext, FunctionalNeeds, EmotionalNeeds, Motivations, Frustrations, Constraints];
    BankHalves();
    AllTargetsAppend(front + back, [MemorableQuote]);
    AllTargetsAppend(front, back);
    AllTargetsSix(TalkedToUsers, PersonaName, VentureType, JobDescription, TaskFrequency, CurrentTools);
    AllTargetsSix(TaskContext, FunctionalNeeds, EmotionalNeeds, Motivations, Frustrations, Constraints);
    assert [MemorableQuote][1..] == [];
  }

  /** No follow-up id is a bank id: each differs in length or first character from all thirteen. */
  lemma CaveatFresh()
    ensures CaveatAcknowledgment.id !in Ids(Bank)
  {
    AbsentBySignature(CaveatAcknowledgment.id, Bank);
  }

  lemma B2cFresh()
    ensures B2cDemographics.id !in Ids(Bank)
  {
    AbsentBySignature(B2cDemographics.id, Bank);
  }

  lemma B2bFresh()
    ensures B2bDemographics.id !in Ids(Bank)
  {
    AbsentBySignature(B2bDemographics.id, Bank);
  }

  /** No follow-up shares an id with a bank question or has a follow-up of its own. */
  lemma BankWellFormed()
    ensures WellFormedBank(Bank)
  {
    BankDistinct();
    BankTargets();
    CaveatFresh();
    B2cFresh();
    B2bFresh();
    WellFormedByTargets(Bank, [CaveatAcknowledgment, B2cDemographics, B2bDemographics]);
  }

  /** The caveat is asked iff the answer mentions "Not yet" or "Planning". */
  lemma {:induction false} TalkedFollowUp(answer: string)
    ensures Evaluate(Bank[0].followUp, answer) ==
      if Contains(answer, "Not yet") || Contains(answer, "Planning") then Some(CaveatAcknowledgment) else None
  {
    var needles := ["Not yet", "Planning"];
    assert ContainsAny(answer, needles) <==> Contains(answer, needles[0]) || Contains(answer, needles[1]);
  }

  lemma ExtensivelySkipsCaveat()
    ensures Evaluate(Bank[0].followUp, TalkedOptions[0]) == None
  {
    TalkedFollowUp(TalkedOptions[0]);
    CharAbsent(TalkedOptions[0], "Not yet", 0);
    CharAbsent(TalkedOptions[0], "Planning", 0);
  }

  lemma FewSkipsCaveat()
    ensures Evaluate(Bank[0].followUp, TalkedOptions[1]) == None
  {
    TalkedFollowUp(TalkedOptions[1]);
    CharAbsent(TalkedOptions[1], "Not yet", 0);
    CharAbsent(TalkedOptions[1], "Planning", 0);
  }

  lemma NotYetAsksCaveat()
    ensures Evaluate(Bank[0].followUp, TalkedOptions[2]) == Some(CaveatAcknowledgment)
  {
    TalkedFollowUp(TalkedOptions[2]);
    PrefixContained(TalkedOptions[2], "Not yet");
  }

  lemma PlanningAsksCaveat()
    ensures Evaluate(Bank[0].followUp, TalkedOptions[3]) == Some(CaveatAcknowledgment)
  {
    TalkedFollowUp(TalkedOptions[3]);
    PrefixContained(TalkedOptions[3], "Planning");
  }

  /** The two "Yes" options skip the caveat; the other two ask it. */
  lemma TalkedOptionsFollowUp()
    ensures Evaluate(Bank[0].followUp, TalkedOptions[0]) == None
    ensures Evaluate(Bank[0].followUp, TalkedOptions[1]) == None
    ensures Evaluate(Bank[0].followUp, TalkedOptions[2]) == Some(CaveatAcknowledgment)
    ensures Evaluate(Bank[0].followUp, TalkedOptions[3]) == Some(CaveatAcknowledgment)
  {
    ExtensivelySkipsCaveat();
    FewSkipsCaveat();
    NotYetAsksCaveat();
    PlanningAsksCaveat();
  }

  /** The venture-type rule always asks a demographics question: the consumer
      one iff the answer mentions "B2C", so "Both" leads to the business one. */
  lemma {:induction false} VentureFollowUp(answer: string)
    ensures Evaluate(Bank[2].followUp, answer) ==
      if Contains(answer, "B2C") then Some(B2cDemographics) else Some(B2bDemographics)
  {
  }

  lemma VentureOptionsFollowUp()
    ensures Evaluate(Bank[2].followUp, VentureOptions[0]) == Some(B2cDemographics)
    ensures Evaluate(Bank[2].followUp, VentureOptions[1]) == Some(B2bDemographics)
    ensures Evaluate(Bank[2].followUp, VentureOptions[2]) == Some(B2bDemographics)
  {
    PrefixContained(VentureOptions[0], "B2C");
    BusinessLacksC(VentureOptions[1]);
    CharAbsent(VentureOptions[1], "B2C", 2);
    assert 'C' !in VentureOptions[2];
    CharAbsent(VentureOptions[2], "B2C", 2);
  }

  lemma {:induction false} BusinessLacksC(v: string)
    requires v == "B2B (Business to Business)"
    ensures 'C' !in v
  {
    assert v == "B2B (Business" + " to Business)";
  }

  /** The record `generatePersona` returns. A field read straight from the
      answers is `None` where JavaScript would hold `undefined`. */
  datatype Persona = Persona(
    name: Option<string>,
    profile: string,
    jobDescription: Option<string>,
    taskFrequency: Option<string>,
    toolsUsed: seq<string>,
    processDescription: Option<string>,
    functional: seq<string>,
    psychological: seq<string>,
    frustrations: seq<string>,
    constraints: seq<string>,
    quotes: seq<string>,
    motivations: seq<string>,
    userResearch: Option<string>)

  /** `answers[key]?.split('\n').filter(l => l.trim()) || []`. */
  function Lines(answers: Answers, key: string): seq<string> {
    if key in answers then NonBlank(Split(answers[key], '\n')) else []
  }

  /** `answers.current_tools?.split(',').map(t => t.trim()) || []`. */
  function Tools(answers: Answers): seq<string> {
    if "current_tools" in answers then TrimAll(Split(answers["current_tools"], ',')) else []
  }

  /** `[answers.memorable_quote].filter(q => q)`. */
  function Quotes(answers: Answers): seq<string> {
    if "memorable_quote" in answers && answers["memorable_quote"] != "" then [answers["memorable_quote"]] else []
  }

  /** `answers.motivations?.split(',') || []`. */
  function MotivationList(answers: Answers): seq<string> {
    if "motivations" in answers then Split(answers["motivations"], ',') else []
  }

  /** `generatePersona`. */
  function GeneratePersona(answers: Answers): Persona {
    Persona(
      name := Lookup(answers, "persona_name"),
      profile := ShowOr(answers, "b2c_demographics", ShowOr(answers, "b2b_demographics", "")),
      jobDescription := Lookup(answers, "job_description"),
      taskFrequency := Lookup(answers, "task_frequency"),
      toolsUsed := Tools(answers),
      processDescription := Lookup(answers, "task_context"),
      functional := Lines(answers, "functional_needs"),
      psychological := Lines(answers, "emotional_needs"),
      frustrations := Lines(answers, "frustrations"),
      constraints := Lines(answers, "constraints"),
      quotes := Quotes(answers),
      motivations := MotivationList(answers),
      userResearch := Lookup(answers, "talked_to_users"))
  }

  /** The profile is the consumer demographics if given, else the business ones if
      given, else empty. */
  lemma {:induction false} ProfileChoice(answers: Answers)
    ensures var p := GeneratePersona(answers).profile;
      && ("b2c_demographics" in answers && answers["b2c_demographics"] != "" ==> p == answers["b2c_demographics"])
      && ((("b2c_demographics" !in answers || answers["b2c_demographics"] == "")
           && "b2b_demographics" in answers && answers["b2b_demographics"] != "") ==> p == answers["b2b_demographics"])
      && (p == "" <==> ("b2c_demographics" !in answers || answers["b2c_demographics"] == "")
                       && ("b2b_demographics" !in answers || answers["b2b_demographics"] == ""))
  {
  }

  /** With no tools answer the list is empty; otherwise it has one trimmed entry per
      comma-separated piece, so one more than the number of commas. */
  lemma {:induction false} ToolsUsed(answers: Answers)
    ensures var t := GeneratePersona(answers).toolsUsed;
      && ("current_tools" !in answers ==> t == [])
      && ("current_tools" in answers ==>
            var pieces := Split(answers["current_tools"], ',');
            && |t| == Count(',', answers["current_tools"]) + 1
            && (forall k :: 0 <= k < |t| ==> t[k] == Trim(pieces[k]) && IsTrimmed(t[k])))
  {
    if "current_tools" in answers {
      var v := answers["current_tools"];
      SplitCount(v, ',');
      var t := GeneratePersona(answers).toolsUsed;
      forall k | 0 <= k < |t| ensures IsTrimmed(t[k]) {
        var _, _ := TrimIsSlice(Split(v, ',')[k]);
      }
    }
  }

  /** Each list answer keeps exactly the lines holding a non-whitespace
      character, untrimmed and in order; an absent answer gives no lines. */
  lemma {:induction false} LineLists(answers: Answers, key: string)
    ensures key !in answers ==> Lines(answers, key) == []
    ensures key in answers ==>
      forall l :: l in Lines(answers, key) <==> l in Split(answers[key], '\n') && Trim(l) != ""
    ensures forall l :: l in Lines(answers, key) ==> '\n' !in l
    ensures GeneratePersona(answers).functional == Lines(answers, "functional_needs")
    ensures GeneratePersona(answers).psychological == Lines(answers, "emotional_needs")
    ensures GeneratePersona(answers).frustrations == Lines(answers, "frustrations")
    ensures GeneratePersona(answers).constraints == Lines(answers, "constraints")
  {
  }

  /** Every non-blank line survives, and lines keep their relative order: the
      lines of `a + "\n" + b` are those of `a` followed by those of `b`. */
  lemma {:induction false} LinesInOrder(a: string, b: string)
    requires '\n' !in a
    ensures NonBlank(Split(a + "\n" + b, '\n')) == NonBlank([a]) + NonBlank(Split(b, '\n'))
  {
    SplitPrefix(a, b, '\n');
    NonBlankAppend([a], Split(b, '\n'));
  }

  /** At most one quote, and it is the quote answer exactly when that is non-empty. */
  lemma {:induction false} QuoteList(answers: Answers)
    ensures |GeneratePersona(answers).quotes| <= 1
    ensures GeneratePersona(answers).quotes != [] <==>
      "memorable_quote" in answers && answers["memorable_quote"] != ""
    ensures GeneratePersona(answers).quotes != [] ==> GeneratePersona(answers).quotes == [answers["memorable_quote"]]
  {
  }

  /** Motivations are the unfiltered comma-split, so joining them gives the answer back. */
  lemma {:induction false} MotivationsRoundTrip(answers: Answers)
    requires "motivations" in answers
    ensures Join(GeneratePersona(answers).motivations, ",") == answers["motivations"]
    ensures |GeneratePersona(answers).motivations| == Count(',', answers["motivations"]) + 1
  {
    JoinSplit(answers["motivations"], ',');
    SplitCount(answers["motivations"], ',');
  }

  lemma {:induction false} NoMotivations(answers: Answers)
    requires "motivations" !in answers
    ensures GeneratePersona(answers).motivations == []
  {
  }
}
