/** The problem-statement question bank and the statement built from its answers
    (app/lib/questions/problem-statement.ts). */
module ProblemStatement {
  import opened Options
  import opened Text
  import opened Questions

  const BusinessSize := Question("business_size", "What size businesses are you targeting?", Select,
    ["1-10 employees", "11-50 employees", "51-200 employees", "200+ employees"], NoFollowUp)

  const ProblemFrequency := Question("problem_frequency", "How often does this problem occur for your customers?", Select,
    ["Daily", "Weekly", "Monthly", "Occasionally", "Constantly"], NoFollowUp)

  const SolutionPainPoints := Question("solution_pain_points", "What frustrates them most about their current solution?",
    TextArea, [], NoFollowUp)

  const BudgetWillingness := Question("budget_willingness",
    "What are they currently spending (time or money) to address this problem?", TextArea, [], NoFollowUp)

  const UrgencyOptions := [
    "Critical - they need a solution immediately",
    "High - actively looking for solutions",
    "Medium - would adopt if the right solution came along",
    "Low - nice to have but not essential"
  ]

  const TargetCustomer := Question("target_customer",
    "Who is experiencing this problem? Describe your target customer.", TextArea, [],
    WhenLowerContains("business", BusinessSize))

  const ProblemDescription := Question("problem_description",
    "What specific problem are they facing? Be as detailed as possible.", TextArea, [], Always(ProblemFrequency))

  const CurrentSolutions := Question("current_solutions",
    "How are they currently solving this problem? What tools or methods do they use?", TextArea, [],
    Always(SolutionPainPoints))

  const Impact := Question("impact", "What happens if this problem is not solved? What are the consequences?",
    TextArea, [], NoFollowUp)

  const Urgency := Question("urgency", "How urgent is it for them to find a better solution?", Select,
    UrgencyOptions, WhenContainsAny(["Critical", "High"], BudgetWillingness))

  const UniqueInsights := Question("unique_insights",
    "What unique insights do you have about this problem that others might miss?", TextArea, [], NoFollowUp)

  /** `problemStatementQuestions`. */
  const Bank: seq<Question> := [TargetCustomer, ProblemDescription, CurrentSolutions, Impact, Urgency, UniqueInsights]

  /** The bank holds the six questions in this order. */
  lemma BankIds()
    ensures Ids(Bank) == ["target_customer", "problem_description", "current_solutions", "impact", "urgency",
                          "unique_insights"]
  {
    IdsSix(TargetCustomer, ProblemDescription, CurrentSolutions, Impact, Urgency, UniqueInsights);
  }

  /** No two bank questions share an id. */
  lemma BankDistinct()
    ensures DistinctIds(Bank)
  {
    DistinctBySignature(Bank);
  }

  /** The follow-ups are the four listed questions, in bank order. */
  lemma BankTargets()
    ensures AllTargets(Bank) == [BusinessSize, ProblemFrequency, SolutionPainPoints, BudgetWillingness]
  {
    AllTargetsSix(TargetCustomer, ProblemDescription, CurrentSolutions, Impact, Urgency, UniqueInsights);
  }

  /** No follow-up id is a bank id: each differs in length or first character from all six. */
  lemma BusinessSizeFresh()
    ensures BusinessSize.id !in Ids(Bank)
  {
    AbsentBySignature(BusinessSize.id, Bank);
  }

  lemma ProblemFrequencyFresh()
    ensures ProblemFrequency.id !in Ids(Bank)
  {
    AbsentBySignature(ProblemFrequency.id, Bank);
  }

  lemma SolutionPainPointsFresh()
    ensures SolutionPainPoints.id !in Ids(Bank)
  {
    AbsentBySignature(SolutionPainPoints.id, Bank);
  }

  lemma BudgetWillingnessFresh()
    ensures BudgetWillingness.id !in Ids(Bank)
  {
    AbsentBySignature(BudgetWillingness.id, Bank);
  }

  /** Bank ids are distinct, and no follow-up shares an id with a bank question or has
      a follow-up of its own. */
  lemma BankWellFormed()
    ensures WellFormedBank(Bank)
  {
    BankDistinct();
    BankTargets();
    BusinessSizeFresh();
    ProblemFrequencyFresh();
    SolutionPainPointsFresh();
    BudgetWillingnessFresh();
    WellFormedByTargets(Bank, [BusinessSize, ProblemFrequency, SolutionPainPoints, BudgetWillingness]);
  }

  /** The target-customer follow-up asks for business size exactly when the
      lower-cased answer mentions "business". */
  lemma {:induction false} TargetCustomerFollowUp(answer: string)
    ensures Evaluate(Bank[0].followUp, answer) ==
      if Contains(ToLower(answer), "business") then Some(BusinessSize) else None
  {
  }

  /** The problem-description and current-solutions follow-ups are asked for every answer. */
  lemma {:induction false} UnconditionalFollowUps(answer: string)
    ensures Evaluate(Bank[1].followUp, answer) == Some(ProblemFrequency)
    ensures Evaluate(Bank[2].followUp, answer) == Some(SolutionPainPoints)
  {
  }

  /** The urgency follow-up is asked iff the answer contains "Critical" or "High". */
  lemma {:induction false} UrgencyFollowUp(answer: string)
    ensures Evaluate(Bank[4].followUp, answer) ==
      if Contains(answer, "Critical") || Contains(answer, "High") then Some(BudgetWillingness) else None
  {
    var needles := ["Critical", "High"];
    assert ContainsAny(answer, needles) <==> Contains(answer, needles[0]) || Contains(answer, needles[1]);
  }

  lemma CriticalAsksBudget()
    ensures Evaluate(Bank[4].followUp, UrgencyOptions[0]) == Some(BudgetWillingness)
  {
    UrgencyFollowUp(UrgencyOptions[0]);
    PrefixContained(UrgencyOptions[0], "Critical");
  }

  lemma HighAsksBudget()
    ensures Evaluate(Bank[4].followUp, UrgencyOptions[1]) == Some(BudgetWillingness)
  {
    UrgencyFollowUp(UrgencyOptions[1]);
    PrefixContained(UrgencyOptions[1], "High");
  }

  lemma MediumSkipsBudget()
    ensures Evaluate(Bank[4].followUp, UrgencyOptions[2]) == None
  {
    UrgencyFollowUp(UrgencyOptions[2]);
    MediumLetters(UrgencyOptions[2]);
    NoTriggerLetters(UrgencyOptions[2]);
  }

  lemma LowSkipsBudget()
    ensures Evaluate(Bank[4].followUp, UrgencyOptions[3]) == None
  {
    UrgencyFollowUp(UrgencyOptions[3]);
    LowLetters(UrgencyOptions[3]);
    NoTriggerLetters(UrgencyOptions[3]);
  }

  /** Of the four offered urgency options, exactly the first two lead to the budget question. */
  lemma UrgencyOptionsFollowUp()
    ensures Evaluate(Bank[4].followUp, UrgencyOptions[0]) == Some(BudgetWillingness)
    ensures Evaluate(Bank[4].followUp, UrgencyOptions[1]) == Some(BudgetWillingness)
    ensures Evaluate(Bank[4].followUp, UrgencyOptions[2]) == None
    ensures Evaluate(Bank[4].followUp, UrgencyOptions[3]) == None
  {
    CriticalAsksBudget();
    HighAsksBudget();
    MediumSkipsBudget();
    LowSkipsBudget();
  }

  /** An answer with no capital C and no capital H contains neither trigger word. */
  lemma {:induction false} NoTriggerLetters(s: string)
    requires 'C' !in s && 'H' !in s
    ensures !Contains(s, "Critical") && !Contains(s, "High")
  {
    CharAbsent(s, "Critical", 0);
    CharAbsent(s, "High", 0);
  }

  // The two lower urgency options hold neither a capital C nor a capital H.

  lemma MediumSplit()
    ensures "Medium - would adopt if the right solution came along"
      == "Medium - would adopt if th" + "e right solution came along"
  {
  }

  lemma MediumHeadLacks()
    ensures 'C' !in "Medium - would adopt if th" && 'H' !in "Medium - would adopt if th"
  {
  }

  lemma MediumTailLacks()
    ensures 'C' !in "e right solution came along" && 'H' !in "e right solution came along"
  {
  }

  lemma {:induction false} MediumLetters(m: string)
    requires m == "Medium - would adopt if the right solution came along"
    ensures 'C' !in m && 'H' !in m
  {
    MediumSplit();
    MediumHeadLacks();
    MediumTailLacks();
  }

  lemma LowLacksC()
    ensures 'C' !in "Low - nice to have but not essential"
  {
  }

  lemma LowLacksH()
    ensures 'H' !in "Low - nice to have but not essential"
  {
  }

  lemma {:induction false} LowLetters(l: string)
    requires l == "Low - nice to have but not essential"
    ensures 'C' !in l && 'H' !in l
  {
    LowLacksC();
    LowLacksH();
  }

  const Heading := "## Problem Statement\n\n**Target Customer**: "
  const CoreLabel := "\n\n**Core Problem**: "
  const SolutionsLabel := "\n\n**Current Solutions**: "
  const PainLabel := "\n\n**Pain Points**: "
  const ImpactLabel := "\n\n**Impact of Unsolved Problem**: "
  const UrgencyLabel := "\n\n**Urgency Level**: "
  const InsightsLabel := "\n\n**Unique Insights**: "
  const OpportunityLead := "\n\n**Opportunity**: By addressing this problem, we can help "
  const Overcome := " overcome "
  const Closing := " and achieve better outcomes."

  /** The parts of the statement template: literal text and interpolated answers,
      alternating; it opens with a newline and closes with a newline and two spaces. */
  function TemplateParts(answers: Answers): seq<string> {
    [ "\n" + Heading, Show(answers, "target_customer"),
      CoreLabel, Show(answers, "problem_description"),
      SolutionsLabel, Show(answers, "current_solutions"),
      PainLabel, ShowOr(answers, "solution_pain_points", "Not specified"),
      ImpactLabel, Show(answers, "impact"),
      UrgencyLabel, Show(answers, "urgency"),
      InsightsLabel, Show(answers, "unique_insights"),
      OpportunityLead, Show(answers, "target_customer"),
      Overcome, ShowOr(answers, "solution_pain_points", "their current frustrations"),
      Closing + "\n  " ]
  }

  /** `generateProblemStatement`: the filled-in template, trimmed. */
  function GenerateProblemStatement(answers: Answers): string {
    Trim(Concat(TemplateParts(answers)))
  }

  /** Trimming removes only the template's leading newline and trailing
      indentation: the answers inside are never trimmed, whatever whitespace they hold. */
  lemma {:induction false} GenerateShape(answers: Answers)
    ensures GenerateProblemStatement(answers) == Heading + Concat(TemplateParts(answers)[1..18]) + Closing
  {
    var parts := TemplateParts(answers);
    assert Heading[0] == '#';
    assert Closing[|Closing| - 1] == '.';
    assert AllWhitespace("\n") && AllWhitespace("\n  ");
    TrimFramed(parts, "\n", Heading, Closing, "\n  ");
  }

  // The runs of the inner template that the lemmas below look at.

  lemma {:induction false} OpeningRun(answers: Answers)
    ensures Concat(TemplateParts(answers)[1..18][..2]) == Show(answers, "target_customer") + CoreLabel
  {
    var mid := TemplateParts(answers)[1..18];
    ConcatStep(mid, 0, 2);
    ConcatStep(mid, 1, 2);
    assert mid[2..2] == [];
  }

  lemma {:induction false} PainRun(answers: Answers)
    ensures Concat(TemplateParts(answers)[1..18][5..8])
      == PainLabel + ShowOr(answers, "solution_pain_points", "Not specified") + ImpactLabel
  {
    var mid := TemplateParts(answers)[1..18];
    ConcatTriple(mid, 5);
  }

  lemma {:induction false} ClosingRun(answers: Answers)
    ensures Concat(TemplateParts(answers)[1..18][15..])
      == Overcome + ShowOr(answers, "solution_pain_points", "their current frustrations")
    ensures Concat(TemplateParts(answers)[1..18][13..])
      == OpportunityLead + Show(answers, "target_customer") + Overcome
         + ShowOr(answers, "solution_pain_points", "their current frustrations")
  {
    var mid := TemplateParts(answers)[1..18];
    ConcatLastFour(mid);
  }

  /** The statement starts with its heading and the target customer's answer
      verbatim, and its Opportunity sentence names that answer again; with no such
      answer, both places read "undefined". */
  lemma {:induction false} TargetCustomerVerbatim(answers: Answers, customer: string)
    requires customer == Show(answers, "target_customer")
    ensures Heading + customer + CoreLabel <= GenerateProblemStatement(answers)
    ensures EndsWith(GenerateProblemStatement(answers),
      OpportunityLead + customer + Overcome + ShowOr(answers, "solution_pain_points", "their current frustrations")
      + Closing)
  {
    var mid := TemplateParts(answers)[1..18];
    var m := Concat(mid);
    GenerateShape(answers);
    ConcatRun(mid, 0, 2);
    OpeningRun(answers);
    PrefixFramed(Heading, m, Closing, Concat(mid[..2]));
    assert Heading + Concat(mid[..2]) == Heading + customer + CoreLabel;
    ConcatRun(mid, 13, 17);
    ClosingRun(answers);
    EndsWithFramed(Heading, m, Closing, Concat(mid[13..]));
  }

  /** The Pain Points line shows the pain-points answer when it is non-empty and
      "Not specified" otherwise; the Opportunity sentence falls back to
      "their current frustrations". */
  lemma {:induction false} PainPoints(answers: Answers)
    ensures var given := "solution_pain_points" in answers && answers["solution_pain_points"] != "";
      Contains(GenerateProblemStatement(answers),
        PainLabel + (if given then answers["solution_pain_points"] else "Not specified") + ImpactLabel)
      && EndsWith(GenerateProblemStatement(answers),
        Overcome + (if given then answers["solution_pain_points"] else "their current frustrations") + Closing)
  {
    var mid := TemplateParts(answers)[1..18];
    var m := Concat(mid);
    GenerateShape(answers);
    ConcatRun(mid, 5, 8);
    PainRun(answers);
    ContainsFramed(Heading, m, Closing, Concat(mid[5..8]));
    ConcatRun(mid, 15, 17);
    ClosingRun(answers);
    EndsWithFramed(Heading, m, Closing, Concat(mid[15..]));
  }
}
