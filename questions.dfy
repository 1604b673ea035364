/** The question shape shared by both banks, with the follow-up rule written as a
    small closed set of conditions instead of an arbitrary function value. */
module Questions {
  import opened Options
  import opened Text

  datatype InputKind = TextLine | TextArea | Select | MultiSelect

  datatype Question = Question(id: string, text: string, kind: InputKind, options: seq<string>, followUp: FollowUp)

  /** The follow-up rules the banks use. */
  datatype FollowUp =
    | NoFollowUp
      /** asks `next` whatever the answer */
    | Always(next: Question)
      /** asks `next` when the lower-cased answer contains `needle` */
    | WhenLowerContains(needle: string, next: Question)
      /** asks `next` when the answer contains one of `needles` (case-sensitive) */
    | WhenContainsAny(needles: seq<string>, next: Question)
      /** asks `ifContained` when the answer contains `needle`, `otherwise` if not */
    | ContainsElse(needle: string, ifContained: Question, otherwise: Question)

  predicate ContainsAny(s: string, needles: seq<string>) {
    exists k | 0 <= k < |needles| :: Contains(s, needles[k])
  }

  /** Calls the follow-up rule on an answer: the question to add, if any. */
  function Evaluate(rule: FollowUp, answer: string): Option<Question> {
    match rule
    case NoFollowUp => None
    case Always(q) => Some(q)
    case WhenLowerContains(needle, q) => if Contains(ToLower(answer), needle) then Some(q) else None
    case WhenContainsAny(needles, q) => if ContainsAny(answer, needles) then Some(q) else None
    case ContainsElse(needle, q1, q2) => if Contains(answer, needle) then Some(q1) else Some(q2)
  }

  /** Every question a rule can produce. */
  function Targets(rule: FollowUp): seq<Question> {
    match rule
    case NoFollowUp => []
    case Always(q) => [q]
    case WhenLowerContains(_, q) => [q]
    case WhenContainsAny(_, q) => [q]
    case ContainsElse(_, q1, q2) => [q1, q2]
  }

  /** A rule only ever produces one of its targets. */
  lemma {:induction false} EvaluateInTargets(rule: FollowUp, answer: string)
    ensures Evaluate(rule, answer).Some? ==> Evaluate(rule, answer).value in Targets(rule)
  {
  }

  function Ids(qs: seq<Question>): (ids: seq<string>)
    ensures |ids| == |qs|
    ensures forall i :: 0 <= i < |qs| ==> ids[i] == qs[i].id
  {
    if qs == [] then [] else [qs[0].id] + Ids(qs[1..])
  }

  predicate DistinctIds(qs: seq<Question>) {
    forall i, j :: 0 <= i < j < |qs| ==> qs[i].id != qs[j].id
  }

  /** The ids of six questions, in order. */
  lemma {:induction false} IdsSix(a: Question, b: Question, c: Question, d: Question, e: Question, f: Question)
    ensures Ids([a, b, c, d, e, f]) == [a.id, b.id, c.id, d.id, e.id, f.id]
  {
  }

  /** Ids that differ in length or in their first character are distinct. */
  lemma {:induction false} DistinctBySignature(qs: seq<Question>)
    requires forall i :: 0 <= i < |qs| ==> qs[i].id != []
    requires forall i, j :: 0 <= i < j < |qs| ==> |qs[i].id| != |qs[j].id| || qs[i].id[0] != qs[j].id[0]
    ensures DistinctIds(qs)
  {
  }

  /** An id that differs in length or first character from every id of `qs` is not one of them. */
  lemma {:induction false} AbsentBySignature(x: string, qs: seq<Question>)
    requires x != []
    requires forall i :: 0 <= i < |qs| ==> qs[i].id != [] && (|qs[i].id| != |x| || qs[i].id[0] != x[0])
    ensures x !in Ids(qs)
  {
  }

  /** Every follow-up target of every question in `bank`, in bank order. */
  function AllTargets(bank: seq<Question>): (r: seq<Question>)
    ensures forall i, q :: 0 <= i < |bank| && q in Targets(bank[i].followUp) ==> q in r
  {
    if bank == [] then [] else Targets(bank[0].followUp) + AllTargets(bank[1..])
  }

  lemma {:induction false} AllTargetsAppend(a: seq<Question>, b: seq<Question>)
    ensures AllTargets(a + b) == AllTargets(a) + AllTargets(b)
  {
    if a == [] {
      assert a + b == b;
    } else {
      assert (a + b)[0] == a[0] && (a + b)[1..] == a[1..] + b;
      AllTargetsAppend(a[1..], b);
    }
  }

  /** The targets of a six-question bank, read off question by question. */
  lemma {:induction false} AllTargetsSix(a: Question, b: Question, c: Question, d: Question, e: Question, f: Question)
    ensures AllTargets([a, b, c, d, e, f]) == Targets(a.followUp) + (Targets(b.followUp) + (Targets(c.followUp)
      + (Targets(d.followUp) + (Targets(e.followUp) + Targets(f.followUp)))))
  {
    var s1, s2, s3, s4, s5 := [b, c, d, e, f], [c, d, e, f], [d, e, f], [e, f], [f];
    assert [f][1..] == [] && AllTargets(s5) == Targets(f.followUp);
    assert s4[1..] == s5 && AllTargets(s4) == Targets(e.followUp) + AllTargets(s5);
    assert s3[1..] == s4 && AllTargets(s3) == Targets(d.followUp) + AllTargets(s4);
    assert s2[1..] == s3 && AllTargets(s2) == Targets(c.followUp) + AllTargets(s3);
    assert s1[1..] == s2 && AllTargets(s1) == Targets(b.followUp) + AllTargets(s2);
    assert [a, b, c, d, e, f][1..] == s1;
  }

  lemma {:induction false} NoTargets(qs: seq<Question>)
    requires forall k :: 0 <= k < |qs| ==> qs[k].followUp == NoFollowUp
    ensures AllTargets(qs) == []
  {
    if qs != [] {
      NoTargets(qs[1..]);
    }
  }

  /** The structural facts both banks satisfy: ids are distinct, no follow-up
      shares an id with a bank question, and follow-ups have no follow-up. */
  predicate WellFormedBank(bank: seq<Question>) {
    && DistinctIds(bank)
    && (forall q :: q in AllTargets(bank) ==> q.followUp == NoFollowUp)
    && (forall q :: q in AllTargets(bank) ==> q.id !in Ids(bank))
  }

  /** A bank is well formed when its ids are distinct and each of its listed
      targets is a fresh question without a follow-up. */
  lemma {:induction false} WellFormedByTargets(bank: seq<Question>, targets: seq<Question>)
    requires DistinctIds(bank) && AllTargets(bank) == targets
    requires forall q :: q in targets ==> q.followUp == NoFollowUp && q.id !in Ids(bank)
    ensures WellFormedBank(bank)
  {
  }

  /** The answers given so far, by question id. */
  type Answers = map<string, string>

  /** `${answers[key]}`: a missing answer renders as "undefined". */
  function Show(answers: Answers, key: string): (r: string)
    ensures key in answers ==> r == answers[key]
    ensures key !in answers ==> r == "undefined"
  {
    if key in answers then answers[key] else "undefined"
  }

  /** `answers[key] || fallback`: a missing or empty answer gives `fallback`. */
  function ShowOr(answers: Answers, key: string, fallback: string): (r: string)
    ensures r == fallback || (key in answers && r == answers[key] != "")
    ensures key in answers && answers[key] != "" ==> r == answers[key]
  {
    if key in answers && answers[key] != "" then answers[key] else fallback
  }

  /** `answers[key]` as an optional value. */
  function Lookup(answers: Answers, key: string): (r: Option<string>)
    ensures r.Some? <==> key in answers
    ensures r.Some? ==> r.value == answers[key]
  {
    if key in answers then Some(answers[key]) else None
  }
}
