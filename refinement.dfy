/** The analysis-text sectioniser `parseAnalysis` of the refinement panel
    (app/components/AIRefinementPanel.tsx): each line of the analysis either names
    a section, and makes it current, or is recorded, trimmed, in the current one. */
module Refinement {
  import opened Options
  import opened Text

  datatype Section = Strengths | Improvements | Suggestions | Questions

  /** The four lists `parseAnalysis` returns. */
  datatype Analysis = Analysis(strengths: seq<string>, improvements: seq<string>, suggestions: seq<string>,
                               questions: seq<string>)
  {
    function Get(sec: Section): seq<string> {
      match sec
      case Strengths => strengths
      case Improvements => improvements
      case Suggestions => suggestions
      case Questions => questions
    }

    /** `sections[sec].push(x)`: only the list of `sec` grows, by `x` at its end. */
    function Add(sec: Section, x: string): (r: Analysis)
      ensures forall s :: r.Get(s) == Get(s) + (if s == sec then [x] else [])
    {
      match sec
      case Strengths => this.(strengths := strengths + [x])
      case Improvements => this.(improvements := improvements + [x])
      case Suggestions => this.(suggestions := suggestions + [x])
      case Questions => this.(questions := questions + [x])
    }
  }

  /** The keyword whose presence in a lower-cased line names each section. */
  function Keyword(sec: Section): string {
    match sec
    case Strengths => "strength"
    case Improvements => "improvement"
    case Suggestions => "suggestion"
    case Questions => "question"
  }

  /** The order in which the keywords are tried. */
  function Rank(sec: Section): nat {
    match sec
    case Strengths => 0
    case Improvements => 1
    case Suggestions => 2
    case Questions => 3
  }

  /** The section a line names, if any: the keywords are tried on the lower-cased
      line in the order strength, improvement, suggestion, question. */
  function HeaderOf(line: string): (r: Option<Section>)
    ensures r.None? ==> forall sec :: !Contains(ToLower(line), Keyword(sec))
    ensures r.Some? ==> Contains(ToLower(line), Keyword(r.value))
    ensures r.Some? ==> forall sec :: Rank(sec) < Rank(r.value) ==> !Contains(ToLower(line), Keyword(sec))
  {
    var lower := ToLower(line);
    if Contains(lower, "strength") then Some(Strengths)
    else if Contains(lower, "improvement") then Some(Improvements)
    else if Contains(lower, "suggestion") then Some(Suggestions)
    else if Contains(lower, "question") then Some(Questions)
    else None
  }

  /** A line that names no section and holds a non-whitespace character. */
  predicate IsItem(line: string) {
    HeaderOf(line).None? && Trim(line) != ""
  }

  /** The section named by the last header line of `lines`, if there is one. */
  function LastHeader(lines: seq<string>): Option<Section> {
    if lines == [] then None
    else if HeaderOf(lines[|lines| - 1]).Some? then HeaderOf(lines[|lines| - 1])
    else LastHeader(lines[..|lines| - 1])
  }

  /** The items recorded in `sec`: each item line, trimmed, whose latest preceding
      header names `sec`, in order. */
  function Items(lines: seq<string>, sec: Section): seq<string> {
    if lines == [] then []
    else
      var n := |lines| - 1;
      Items(lines[..n], sec) + (if IsItem(lines[n]) && LastHeader(lines[..n]) == Some(sec) then [Trim(lines[n])] else [])
  }

  /** One more line extends the items of each section by at most that line, trimmed. */
  lemma {:induction false} ItemsStep(lines: seq<string>, i: nat, sec: Section)
    requires i < |lines|
    ensures LastHeader(lines[..i + 1]) == if HeaderOf(lines[i]).Some? then HeaderOf(lines[i]) else LastHeader(lines[..i])
    ensures Items(lines[..i + 1], sec) == Items(lines[..i], sec)
      + (if IsItem(lines[i]) && LastHeader(lines[..i]) == Some(sec) then [Trim(lines[i])] else [])
  {
    var p := lines[..i + 1];
    assert p[..i] == lines[..i] && p[i] == lines[i];
  }

  /** `parseAnalysis`. */
  method ParseAnalysis(text: string) returns (sections: Analysis)
    ensures forall sec :: sections.Get(sec) == Items(Split(text, '\n'), sec)
  {
    sections := Analysis([], [], [], []);
    var lines := Split(text, '\n');
    var currentSection: Option<Section> := None;
    var i := 0;
    while i < |lines|
      invariant i <= |lines|
      invariant currentSection == LastHeader(lines[..i])
      invariant forall sec :: sections.Get(sec) == Items(lines[..i], sec)
    {
      var line := lines[i];
      forall sec
        ensures Items(lines[..i + 1], sec)
          == Items(lines[..i], sec) + (if IsItem(line) && currentSection == Some(sec) then [Trim(line)] else [])
      {
        ItemsStep(lines, i, sec);
      }
      ItemsStep(lines, i, Strengths);
      var lower := ToLower(line);
      if Contains(lower, "strength") {
        currentSection := Some(Strengths);
      } else if Contains(lower, "improvement") {
        currentSection := Some(Improvements);
      } else if Contains(lower, "suggestion") {
        currentSection := Some(Suggestions);
      } else if Contains(lower, "question") {
        currentSection := Some(Questions);
      } else if Trim(line) != "" && currentSection.Some? {
        sections := sections.Add(currentSection.value, Trim(line));
      }
      i := i + 1;
    }
    assert lines[..i] == lines;
  }

  /** Line `i` is an item line, trimmed it is `x`, and the latest header before it names `sec`. */
  predicate ItemAt(lines: seq<string>, i: nat, sec: Section, x: string) {
    i < |lines| && IsItem(lines[i]) && LastHeader(lines[..i]) == Some(sec) && Trim(lines[i]) == x
  }

  /** Line `i` of a prefix is line `i` of the whole, with the same lines before it. */
  lemma {:induction false} ItemAtPrefix(lines: seq<string>, k: nat, i: nat, sec: Section, x: string)
    requires i < k <= |lines|
    ensures ItemAt(lines[..k], i, sec, x) <==> ItemAt(lines, i, sec, x)
  {
    assert lines[..k][..i] == lines[..i] && lines[..k][i] == lines[i];
  }

  /** Every recorded item comes from an item line whose latest header names its section. */
  lemma {:induction false} ItemSource(lines: seq<string>, sec: Section, x: string) returns (i: nat)
    requires x in Items(lines, sec)
    ensures ItemAt(lines, i, sec, x)
  {
    var n := |lines| - 1;
    var init := lines[..n];
    var extra := if IsItem(lines[n]) && LastHeader(init) == Some(sec) then [Trim(lines[n])] else [];
    assert Items(lines, sec) == Items(init, sec) + extra;
    if x in extra {
      i := n;
    } else {
      i := ItemSource(init, sec, x);
      ItemAtPrefix(lines, n, i, sec, x);
    }
  }

  /** Every item line is recorded, trimmed, in the section of its latest header. */
  lemma {:induction false} ItemRecorded(lines: seq<string>, i: nat, sec: Section, x: string)
    requires ItemAt(lines, i, sec, x)
    ensures x in Items(lines, sec)
  {
    var n := |lines| - 1;
    var init := lines[..n];
    var extra := if IsItem(lines[n]) && LastHeader(init) == Some(sec) then [Trim(lines[n])] else [];
    assert Items(lines, sec) == Items(init, sec) + extra;
    if i < n {
      ItemAtPrefix(lines, n, i, sec, x);
      ItemRecorded(init, i, sec, x);
      assert x in Items(init, sec);
    } else {
      assert init == lines[..i];
      assert extra == [x];
    }
  }

  /** An item is recorded in `sec` iff some item line, trimmed, equals it and the
      latest header before that line names `sec`. */
  lemma {:induction false} ItemsMembership(lines: seq<string>, sec: Section, x: string)
    ensures x in Items(lines, sec) <==> exists i: nat :: ItemAt(lines, i, sec, x)
  {
    if x in Items(lines, sec) {
      var i := ItemSource(lines, sec, x);
    }
    if exists i: nat :: ItemAt(lines, i, sec, x) {
      var i: nat :| ItemAt(lines, i, sec, x);
      ItemRecorded(lines, i, sec, x);
    }
  }

  /** Items of a section keep the order of their lines: the items of a prefix of the
      lines are a prefix of the items. */
  lemma {:induction false} ItemsPrefix(lines: seq<string>, k: nat, sec: Section)
    requires k <= |lines|
    ensures Items(lines[..k], sec) <= Items(lines, sec)
  {
    if k == |lines| {
      assert lines[..k] == lines;
    } else {
      var n := |lines| - 1;
      var init := lines[..n];
      assert init[..k] == lines[..k];
      ItemsPrefix(init, k, sec);
      var extra := if IsItem(lines[n]) && LastHeader(init) == Some(sec) then [Trim(lines[n])] else [];
      assert Items(lines, sec) == Items(init, sec) + extra;
    }
  }

  /** Lines before the first header are dropped: with no header at all, nothing is recorded. */
  lemma {:induction false} NoHeaderNoItems(lines: seq<string>, sec: Section)
    requires forall i :: 0 <= i < |lines| ==> HeaderOf(lines[i]).None?
    ensures LastHeader(lines) == None && Items(lines, sec) == []
  {
    if lines != [] {
      var n := |lines| - 1;
      assert forall i :: 0 <= i < n ==> lines[..n][i] == lines[i];
      NoHeaderNoItems(lines[..n], sec);
    }
  }

  /** A line is recorded at most once, in one section, so there are no more items
      than lines. */
  lemma {:induction false} ItemsBound(lines: seq<string>)
    ensures |Items(lines, Strengths)| + |Items(lines, Improvements)| + |Items(lines, Suggestions)|
            + |Items(lines, Questions)| <= |lines|
  {
    if lines != [] {
      ItemsBound(lines[..|lines| - 1]);
    }
  }

  /** Every recorded item is non-empty, trimmed, and mentions none of the four
      keywords in any letter case. */
  lemma {:induction false} ItemWellFormed(lines: seq<string>, sec: Section, x: string)
    requires x in Items(lines, sec)
    ensures x != "" && IsTrimmed(x)
    ensures forall s :: !Contains(ToLower(x), Keyword(s))
  {
    var i := ItemSource(lines, sec, x);
    var line := lines[i];
    var a, b := TrimIsSlice(line);
    ToLowerSlice(line, a, b);
    forall s ensures !Contains(ToLower(x), Keyword(s)) {
      if Contains(ToLower(x), Keyword(s)) {
        ContainsInSlice(ToLower(line), a, b, Keyword(s));
      }
    }
  }
}
