/** The customer-persona questionnaire session
    (app/components/modules/CustomerPersonaModule.tsx): a cursor over the bank
    followed by the follow-ups added so far, the answers by question id, and the
    completion flag. Every handler is one atomic step over the state it started
    from, which is why `onSubmit` compares the cursor with the question list as it
    stood before its own follow-up was added. */
module PersonaSession {
  import opened Options
  import opened Text
  import opened Questions
  import opened Artifacts
  import CustomerPersona

  /** `[...customerPersonaQuestions, ...additionalQuestions]`. */
  function AllQuestions(added: seq<Question>): seq<Question> {
    CustomerPersona.Bank + added
  }

  /** The body posted to `/api/artifacts` by `handleComplete`. */
  datatype SaveRequest = SaveRequest(
    typeId: string,
    status: Status,
    persona: CustomerPersona.Persona,
    answers: Answers,
    moduleId: ModuleId,
    isFoundational: bool,
    ventureId: string)

  /** The session state the handlers update. */
  datatype State = State(index: nat, answers: Answers, added: seq<Question>, complete: bool)

  /** The cursor points at a question, added follow-ups come from the bank's
      follow-up rules, and no two of them share an id. */
  predicate Valid(s: State) {
    && s.index < |AllQuestions(s.added)|
    && DistinctIds(s.added)
    && (forall q :: q in s.added ==> q in AllTargets(CustomerPersona.Bank))
  }

  /** The state a session starts in, with the answers of a saved artifact if one is given. */
  function Initial(saved: Option<Answers>): (s: State)
    ensures Valid(s) && s.index == 0 && s.added == [] && !s.complete
    ensures s.answers == if saved.Some? then saved.value else map[]
  {
    CustomerPersona.BankIds();
    State(0, saved.GetOr(map[]), [], false)
  }

  /** `handleComplete(finalAnswers)`: the request it posts. */
  function CompletionRequest(ventureId: string, finalAnswers: Answers): SaveRequest {
    SaveRequest(TypeId(CustomerPersona), Complete, CustomerPersona.GeneratePersona(finalAnswers), finalAnswers,
      Problem, false, ventureId)
  }

  /** The follow-up list after the current question's rule has been run on `answer`:
      a produced question is appended unless one with its id was added before. */
  function AddFollowUp(added: seq<Question>, rule: FollowUp, answer: string): seq<Question> {
    match Evaluate(rule, answer)
    case Some(f) => if f.id in Ids(added) then added else added + [f]
    case None => added
  }

  /** `onSubmit` behind the form's non-empty check (an empty answer changes nothing), with
      `saved` the outcome of the request `handleComplete` posts. Returns the new
      state and the request, if one was posted. */
  function Submit(ventureId: string, s: State, answer: string, saved: bool): (State, Option<SaveRequest>)
    requires Valid(s)
  {
    if answer == "" then (s, None)
    else
      var all := AllQuestions(s.added);
      var q := all[s.index];
      var answers := s.answers[q.id := answer];
      var added := AddFollowUp(s.added, q.followUp, answer);
      if s.index < |all| - 1 then (State(s.index + 1, answers, added, s.complete), None)
      else (State(s.index, answers, added, s.complete || saved), Some(CompletionRequest(ventureId, answers)))
  }

  /** `goBack`. */
  function GoBack(s: State): State {
    if s.index > 0 then s.(index := s.index - 1) else s
  }

  /** The selected options of a multiselect answer, as the checkbox handler reads them back. */
  function Selected(answers: Answers, id: string): seq<string> {
    if id in answers then NonEmpty(Split(answers[id], ',')) else []
  }

  /** The checkbox handler for `option` of the current question. */
  function Toggle(s: State, option: string, checked: bool): State
    requires Valid(s)
  {
    var id := AllQuestions(s.added)[s.index].id;
    var current := Selected(s.answers, id);
    var updated := if checked then current + [option] else RemoveAll(current, option);
    s.(answers := s.answers[id := Join(updated, ",")])
  }

  /** "Save Draft": `handleComplete(answers)` at any point of the questionnaire. */
  function SaveDraft(ventureId: string, s: State, saved: bool): (State, SaveRequest) {
    (s.(complete := s.complete || saved), CompletionRequest(ventureId, s.answers))
  }

  // Properties of the handlers.

  /** The question list is the bank followed by the follow-ups in the order they were added. */
  lemma {:induction false} AllQuestionsOrder(added: seq<Question>)
    ensures |AllQuestions(added)| == 13 + |added|
    ensures AllQuestions(added)[..13] == CustomerPersona.Bank
    ensures AllQuestions(added)[13..] == added
  {
    CustomerPersona.BankIds();
  }

  /** In a valid state no two questions of the whole list share an id. */
  lemma {:induction false} AllQuestionsDistinct(s: State)
    requires Valid(s)
    ensures DistinctIds(AllQuestions(s.added))
  {
    var bank := CustomerPersona.Bank;
    var all := AllQuestions(s.added);
    CustomerPersona.BankDistinct();
    CustomerPersona.BankWellFormed();
    CustomerPersona.BankIds();
    forall i, j | 0 <= i < j < |all| ensures all[i].id != all[j].id {
      if j >= 13 {
        var b := all[j];
        assert b == s.added[j - 13];
        assert b in s.added;
        assert b.id !in Ids(bank);
        if i < 13 {
          assert all[i].id == Ids(bank)[i];
        } else {
          assert all[i] == s.added[i - 13];
        }
      }
    }
  }

  /** An empty answer is rejected and changes nothing. */
  lemma {:induction false} SubmitEmpty(ventureId: string, s: State, saved: bool)
    requires Valid(s)
    ensures Submit(ventureId, s, "", saved) == (s, None)
  {
  }

  /** A submitted answer is recorded under the current question's id and every
      other answer is left as it was. */
  lemma {:induction false} SubmitRecords(ventureId: string, s: State, answer: string, saved: bool)
    requires Valid(s) && answer != ""
    ensures var id := AllQuestions(s.added)[s.index].id;
      var t := Submit(ventureId, s, answer, saved).0;
      && t.answers.Keys == s.answers.Keys + {id}
      && t.answers[id] == answer
      && (forall k :: k in s.answers && k != id ==> t.answers[k] == s.answers[k])
  {
  }

  /** The cursor moves on by one exactly when it was short of the end of the list as
      it stood before the submit; otherwise it stays and the completion request is
      posted with the new answers, and the session is complete iff that save succeeded
      or it already was. */
  lemma {:induction false} SubmitAdvances(ventureId: string, s: State, answer: string, saved: bool)
    requires Valid(s) && answer != ""
    ensures var (t, request) := Submit(ventureId, s, answer, saved);
      var before := |AllQuestions(s.added)|;
      && (s.index < before - 1 ==> t.index == s.index + 1 && request == None && t.complete == s.complete)
      && (s.index == before - 1 ==>
            && t.index == s.index
            && request == Some(CompletionRequest(ventureId, t.answers))
            && t.complete == (s.complete || saved))
  {
  }

  /** Added follow-ups are never removed: at most the one the current rule produces is
      appended, and only when no added question has its id. */
  lemma {:induction false} SubmitFollowUps(ventureId: string, s: State, answer: string, saved: bool)
    requires Valid(s) && answer != ""
    ensures var t := Submit(ventureId, s, answer, saved).0;
      var rule := AllQuestions(s.added)[s.index].followUp;
      && s.added <= t.added
      && (t.added == s.added || t.added == s.added + [Evaluate(rule, answer).value])
      && (t.added != s.added <==> Evaluate(rule, answer).Some? && Evaluate(rule, answer).value.id !in Ids(s.added))
  {
  }

  /** A changed answer does not withdraw a follow-up it triggered before: submitting
      any answer to the venture-type question keeps every added question and holds the
      demographics question that answer calls for, appended when it was not there yet. */
  lemma {:induction false} FollowUpsNotWithdrawn(ventureId: string, s: State, answer: string, saved: bool)
    requires Valid(s) && s.index == 2 && answer != ""
    ensures var t := Submit(ventureId, s, answer, saved).0;
      var other := if Contains(answer, "B2C") then CustomerPersona.B2cDemographics else CustomerPersona.B2bDemographics;
      && s.added <= t.added
      && other in t.added
      && (other !in s.added ==> t.added == s.added + [other])
  {
    CustomerPersona.BankIds();
    CustomerPersona.BankTargets();
    CustomerPersona.VentureFollowUp(answer);
    var other := if Contains(answer, "B2C") then CustomerPersona.B2cDemographics else CustomerPersona.B2bDemographics;
    assert AllQuestions(s.added)[2] == CustomerPersona.Bank[2];
    if other in s.added {
      assert other.id in Ids(s.added) by {
        var i :| 0 <= i < |s.added| && s.added[i] == other;
        assert Ids(s.added)[i] == other.id;
      }
    } else {
      forall i | 0 <= i < |s.added| ensures Ids(s.added)[i] != other.id {
        assert s.added[i] in AllTargets(CustomerPersona.Bank);
        assert Ids(s.added)[i] == s.added[i].id;
      }
    }
  }

  /** Adding a follow-up drawn from `targets` keeps the added list duplicate-free and
      within `targets`, and never shortens it. */
  lemma {:induction false} AddFollowUpKeeps(added: seq<Question>, rule: FollowUp, answer: string, targets: seq<Question>)
    requires DistinctIds(added) && (forall q :: q in added ==> q in targets)
    requires Evaluate(rule, answer).Some? ==> Evaluate(rule, answer).value in targets
    ensures var r := AddFollowUp(added, rule, answer);
      DistinctIds(r) && (forall q :: q in r ==> q in targets) && |added| <= |r|
  {
    var r := AddFollowUp(added, rule, answer);
    if r != added {
      var f := Evaluate(rule, answer).value;
      assert r == added + [f];
      forall i | 0 <= i < |added| ensures added[i].id != f.id {
        assert Ids(added)[i] == added[i].id;
      }
    }
  }

  /** The current question's rule only ever produces one of the bank's follow-ups. */
  lemma {:induction false} RuleTargets(s: State, answer: string)
    requires Valid(s)
    ensures var rule := AllQuestions(s.added)[s.index].followUp;
      Evaluate(rule, answer).Some? ==> Evaluate(rule, answer).value in AllTargets(CustomerPersona.Bank)
  {
    var q := AllQuestions(s.added)[s.index];
    if s.index < 13 {
      CustomerPersona.BankIds();
      assert q == CustomerPersona.Bank[s.index];
      EvaluateInTargets(q.followUp, answer);
    } else {
      assert q in s.added;
      CustomerPersona.BankWellFormed();
      assert Evaluate(q.followUp, answer) == None;
    }
  }

  /** Every handler keeps the state valid. */
  lemma {:induction false} SubmitValid(ventureId: string, s: State, answer: string, saved: bool)
    requires Valid(s)
    ensures Valid(Submit(ventureId, s, answer, saved).0)
  {
    if answer != "" {
      var q := AllQuestions(s.added)[s.index];
      RuleTargets(s, answer);
      AddFollowUpKeeps(s.added, q.followUp, answer, AllTargets(CustomerPersona.Bank));
    }
  }

  /** Back steps the cursor down iff it is above the first question; nothing else changes. */
  lemma {:induction false} GoBackStep(s: State)
    requires Valid(s)
    ensures Valid(GoBack(s))
    ensures GoBack(s).index == if s.index > 0 then s.index - 1 else s.index
    ensures GoBack(s).answers == s.answers && GoBack(s).added == s.added && GoBack(s).complete == s.complete
  {
  }

  /** Checking an option appends it to the selection and unchecking removes every
      copy of it; the stored answer reads back as exactly that selection when the
      option is a non-empty string without a comma. */
  lemma {:induction false} SelectionRoundTrip(answers: Answers, id: string, option: string, checked: bool)
    requires option != "" && ',' !in option
    ensures var current := Selected(answers, id);
      var updated := if checked then current + [option] else RemoveAll(current, option);
      Selected(answers[id := Join(updated, ",")], id) == updated
  {
    var current := Selected(answers, id);
    var updated := if checked then current + [option] else RemoveAll(current, option);
    if id in answers {
      NonEmptyKeeps(Split(answers[id], ','), ',');
    }
    assert NoneEmpty(current) && NoneContain(current, ',');
    if !checked {
      RemoveAllKeeps(current, option, ',');
    }
    assert NoneEmpty(updated) && NoneContain(updated, ',');
    SplitJoin(updated, ',');
  }

  /** The checkbox handler changes only the current question's answer, to the new selection. */
  lemma {:induction false} ToggleStep(s: State, option: string, checked: bool)
    requires Valid(s) && option != "" && ',' !in option
    ensures var id := AllQuestions(s.added)[s.index].id;
      var t := Toggle(s, option, checked);
      && Selected(t.answers, id) ==
           (if checked then Selected(s.answers, id) + [option] else RemoveAll(Selected(s.answers, id), option))
      && (forall k :: k in s.answers && k != id ==> k in t.answers && t.answers[k] == s.answers[k])
      && t.index == s.index && t.added == s.added && t.complete == s.complete && Valid(t)
  {
    SelectionRoundTrip(s.answers, AllQuestions(s.added)[s.index].id, option, checked);
  }

  lemma {:induction false} RemoveAllKeeps(parts: seq<string>, x: string, c: char)
    requires NoneEmpty(parts) && NoneContain(parts, c)
    ensures NoneEmpty(RemoveAll(parts, x)) && NoneContain(RemoveAll(parts, x), c)
  {
    if parts != [] {
      RemoveAllKeeps(parts[1..], x, c);
    }
  }

  /** Every kept piece is one of the pieces, so a property of all pieces carries over. */
  lemma {:induction false} NonEmptyKeeps(pieces: seq<string>, c: char)
    requires NoneContain(pieces, c)
    ensures NoneContain(NonEmpty(pieces), c)
  {
    if pieces != [] {
      NonEmptyKeeps(pieces[1..], c);
    }
  }

  /** The motivation options are non-empty and comma-free, so toggling them round-trips. */
  lemma MotivationOptionsToggle()
    ensures forall o :: o in CustomerPersona.Motivations.options ==> o != "" && ',' !in o
  {
  }

  /** "Save Draft" posts the persona built from the answers so far with status
      complete, wherever the cursor is, and changes nothing but the completion flag. */
  lemma {:induction false} SaveDraftRequest(ventureId: string, s: State, saved: bool)
    ensures var (t, r) := SaveDraft(ventureId, s, saved);
      && r.status == Complete && r.answers == s.answers
      && r.persona == CustomerPersona.GeneratePersona(s.answers)
      && r.typeId == "customer_persona" && r.moduleId == Problem && !r.isFoundational && r.ventureId == ventureId
      && t == s.(complete := s.complete || saved)
  {
  }

  /** Submitting the last question is "Save Draft" on the state with that answer
      recorded (and its follow-up added): the same request, the same new state. A
      draft saved anywhere else keeps the session valid and leaves the cursor where it is. */
  lemma {:induction false} SubmitLastIsSaveDraft(ventureId: string, s: State, answer: string, saved: bool)
    requires Valid(s) && answer != ""
    ensures var all := AllQuestions(s.added);
      var recorded := State(s.index, s.answers[all[s.index].id := answer],
        AddFollowUp(s.added, all[s.index].followUp, answer), s.complete);
      var (t, r) := Submit(ventureId, s, answer, saved);
      && (s.index == |all| - 1 <==> r.Some?)
      && (s.index == |all| - 1 ==>
          var (u, d) := SaveDraft(ventureId, recorded, saved);
          t == u && r == Some(d))
    ensures Valid(SaveDraft(ventureId, s, saved).0) && SaveDraft(ventureId, s, saved).0.index == s.index
  {
  }

  /** The session as the component holds it. */
  class Session {
    const ventureId: string
    var currentQuestionIndex: nat
    var answers: Answers
    var additionalQuestions: seq<Question>
    var isComplete: bool

    function Current(): State
      reads this
    {
      State(currentQuestionIndex, answers, additionalQuestions, isComplete)
    }

    constructor(ventureId: string, saved: Option<Answers>)
      ensures this.ventureId == ventureId && Current() == Initial(saved)
    {
      this.ventureId := ventureId;
      currentQuestionIndex := 0;
      answers := saved.GetOr(map[]);
      additionalQuestions := [];
      isComplete := false;
    }

    /** `onSubmit`, with the form's validation in front of it. */
    method OnSubmit(answer: string, saved: bool) returns (request: Option<SaveRequest>)
      requires Valid(Current())
      modifies this
      ensures (Current(), request) == Submit(ventureId, old(Current()), answer, saved)
      ensures Valid(Current())
    {
      ghost var s := Current();
      SubmitValid(ventureId, s, answer, saved);
      request := None;
      if answer == "" {
        return;
      }
      var all := AllQuestions(additionalQuestions);
      var q := all[currentQuestionIndex];
      var newAnswers := answers[q.id := answer];
      answers := newAnswers;
      var followUp := Evaluate(q.followUp, answer);
      if followUp.Some? && followUp.value.id !in Ids(additionalQuestions) {
        additionalQuestions := additionalQuestions + [followUp.value];
      }
      assert additionalQuestions == AddFollowUp(s.added, q.followUp, answer);
      if currentQuestionIndex < |all| - 1 {
        currentQuestionIndex := currentQuestionIndex + 1;
      } else {
        request := HandleComplete(newAnswers, saved);
      }
    }

    /** `handleComplete`: posts the request and marks the session complete on success. */
    method HandleComplete(finalAnswers: Answers, saved: bool) returns (request: Option<SaveRequest>)
      modifies this`isComplete
      ensures request == Some(CompletionRequest(ventureId, finalAnswers))
      ensures isComplete == (old(isComplete) || saved)
    {
      request := Some(CompletionRequest(ventureId, finalAnswers));
      if saved {
        isComplete := true;
      }
    }

    method OnGoBack()
      modifies this`currentQuestionIndex
      ensures Current() == GoBack(old(Current()))
    {
      if currentQuestionIndex > 0 {
        currentQuestionIndex := currentQuestionIndex - 1;
      }
    }

    method OnToggle(option: string, checked: bool)
      requires Valid(Current())
      modifies this`answers
      ensures Current() == Toggle(old(Current()), option, checked)
    {
      var id := AllQuestions(additionalQuestions)[currentQuestionIndex].id;
      var current := if id in answers then NonEmpty(Split(answers[id], ',')) else [];
      var updated := if checked then current + [option] else RemoveAll(current, option);
      answers := answers[id := Join(updated, ",")];
    }

    method OnSaveDraft(saved: bool) returns (request: SaveRequest)
      modifies this`isComplete
      ensures (Current(), request) == SaveDraft(ventureId, old(Current()), saved)
    {
      var r := HandleComplete(answers, saved);
      request := r.value;
    }
  }
}
