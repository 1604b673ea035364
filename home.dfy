/** The module dashboard (app/page.tsx): the table of journey modules, which of
    them may be opened, and the dashboard's state — the open module, the types of
    completed artifacts, and the artifacts themselves. */
module Home {
  import opened Options
  import opened Artifacts

  /** The form a module opens. */
  datatype Component = ProblemStatementForm | CustomerPersonaForm

  datatype ModuleEntry = ModuleEntry(id: string, title: string, isFoundational: bool, component: Option<Component>)

  /** The `modules` table, in display order. */
  const Modules: seq<ModuleEntry> := [
    ModuleEntry("problem_statement", "Problem Statement", true, Some(ProblemStatementForm)),
    ModuleEntry("customer_persona", "Customer Personas", false, Some(CustomerPersonaForm)),
    ModuleEntry("interview_guide", "Interview Guide", false, None),
    ModuleEntry("interview_insights", "Interview Insights", false, None),
    ModuleEntry("market_sizing", "Market Sizing", false, None)
  ]

  /** `ms.find(m => m.id === id)`. */
  function Find(ms: seq<ModuleEntry>, id: string): (r: Option<ModuleEntry>)
    ensures r.Some? ==> r.value in ms && r.value.id == id
    ensures r.None? ==> forall m :: m in ms ==> m.id != id
  {
    if ms == [] then None else if ms[0].id == id then Some(ms[0]) else Find(ms[1..], id)
  }

  /** `ms.filter(m => m.isFoundational)`. */
  function Foundational(ms: seq<ModuleEntry>): (r: seq<ModuleEntry>)
    ensures forall m :: m in r <==> m in ms && m.isFoundational
  {
    if ms == [] then []
    else (if ms[0].isFoundational then [ms[0]] else []) + Foundational(ms[1..])
  }

  /** `ms.every(m => completed.includes(m.id))`. */
  function AllCompleted(ms: seq<ModuleEntry>, completed: seq<string>): (r: bool)
    ensures r <==> forall m :: m in ms ==> m.id in completed
  {
    if ms == [] then true else ms[0].id in completed && AllCompleted(ms[1..], completed)
  }

  /** `canAccessModule`. */
  function CanAccessModule(completed: seq<string>, id: string): bool {
    match Find(Modules, id)
    case None => false
    case Some(m) => m.isFoundational || AllCompleted(Foundational(Modules), completed)
  }

  predicate Known(id: string) {
    exists m :: m in Modules && m.id == id
  }

  /** The problem statement is the only foundational module. */
  lemma OnlyFoundational()
    ensures Foundational(Modules) == [Modules[0]]
    ensures Modules[0].id == "problem_statement"
  {
    assert Modules[1..][1..][1..][1..][1..] == [];
  }

  /** An id missing from the table is never accessible. */
  lemma {:induction false} UnknownInaccessible(completed: seq<string>, id: string)
    requires !Known(id)
    ensures !CanAccessModule(completed, id)
  {
  }

  /** The foundational module is accessible from the start, whatever is completed. */
  lemma {:induction false} FoundationalAccessible(completed: seq<string>)
    ensures CanAccessModule(completed, "problem_statement")
  {
  }

  /** Any other module is accessible exactly when every foundational module — that is,
      the problem statement — has been completed. */
  lemma {:induction false} NonFoundationalAccess(completed: seq<string>, id: string)
    requires Known(id) && id != "problem_statement"
    ensures CanAccessModule(completed, id) <==> forall m :: m in Foundational(Modules) ==> m.id in completed
    ensures CanAccessModule(completed, id) <==> "problem_statement" in completed
  {
    OnlyFoundational();
    var m := Find(Modules, id).value;
    assert m.id == id;
  }

  /** Completing more never takes access away. */
  lemma {:induction false} AccessMonotone(c: seq<string>, c': seq<string>, id: string)
    requires forall x :: x in c ==> x in c'
    ensures CanAccessModule(c, id) ==> CanAccessModule(c', id)
  {
  }

  /** `artifacts.find(a => a.type === t)`. */
  function FirstOfType(artifacts: seq<StoredArtifact>, t: string): (r: Option<StoredArtifact>)
    ensures r.None? <==> forall a :: a in artifacts ==> a.typeId != t
    ensures r.Some? ==> exists i :: (0 <= i < |artifacts| && artifacts[i] == r.value && r.value.typeId == t
      && forall j :: 0 <= j < i ==> artifacts[j].typeId != t)
  {
    if artifacts == [] then None
    else if artifacts[0].typeId == t then Some(artifacts[0])
    else
      var r := FirstOfType(artifacts[1..], t);
      if r.Some? then
        var i :| 0 <= i < |artifacts[1..]| && artifacts[1..][i] == r.value && r.value.typeId == t
          && forall j :: 0 <= j < i ==> artifacts[1..][j].typeId != t;
        assert artifacts[i + 1] == r.value;
        assert forall j :: 1 <= j < i + 1 ==> artifacts[j] == artifacts[1..][j - 1];
        r
      else r
  }

  /** The dashboard's state. */
  datatype State = State(selected: Option<string>, completed: seq<string>, artifacts: seq<StoredArtifact>)

  /** An open module is one that was selectable when it was opened, and stays so. */
  predicate Valid(s: State) {
    s.selected.Some? ==>
      CanAccessModule(s.completed, s.selected.value)
      && Find(Modules, s.selected.value).Some? && Find(Modules, s.selected.value).value.component.Some?
  }

  /** Clicking a card: only an accessible module with a form opens. */
  function Click(s: State, id: string): State {
    var entry := Find(Modules, id);
    if CanAccessModule(s.completed, id) && entry.Some? && entry.value.component.Some? then s.(selected := Some(id))
    else s
  }

  /** `handleModuleComplete`. */
  function CompleteModule(s: State, artifact: StoredArtifact): State {
    State(None, s.completed + [artifact.typeId], s.artifacts + [artifact])
  }

  /** The module form shown, with the artifact it is given to edit. */
  function Rendered(s: State): Option<(Component, Option<StoredArtifact>)> {
    if s.selected.None? then None
    else
      var entry := Find(Modules, s.selected.value);
      if entry.Some? && entry.value.component.Some? then
        Some((entry.value.component.value, FirstOfType(s.artifacts, s.selected.value)))
      else None
  }

  /** The three modules without a form never open. */
  lemma {:induction false} NoFormNeverOpens(s: State, id: string)
    requires id == "interview_guide" || id == "interview_insights" || id == "market_sizing"
    ensures Click(s, id) == s
  {
    var entry := Find(Modules, id);
    if entry.Some? {
      assert |entry.value.id| == |id|;
      assert entry.value.component.None?;
    }
  }

  /** Before the problem statement is complete, the persona module does not open either. */
  lemma {:induction false} PersonaLocked(s: State)
    requires "problem_statement" !in s.completed
    ensures Click(s, "customer_persona") == s
  {
    NonFoundationalAccess(s.completed, "customer_persona") by {
      assert Modules[1].id == "customer_persona";
    }
  }

  /** A click either opens the clicked module or changes nothing. */
  lemma {:induction false} ClickOpens(s: State, id: string)
    ensures Click(s, id) == s || Click(s, id) == s.(selected := Some(id))
    ensures Click(s, id).selected == Some(id) <==>
      (CanAccessModule(s.completed, id) && Find(Modules, id).Some? && Find(Modules, id).value.component.Some?)
      || s.selected == Some(id)
  {
  }

  /** Completion records the artifact and its type at the end, duplicates included,
      and returns to the dashboard; once a problem statement is recorded, every module
      in the table is accessible. */
  lemma {:induction false} CompleteStep(s: State, artifact: StoredArtifact, id: string)
    ensures CompleteModule(s, artifact).artifacts == s.artifacts + [artifact]
    ensures CompleteModule(s, artifact).completed == s.completed + [artifact.typeId]
    ensures CompleteModule(s, artifact).selected == None && Rendered(CompleteModule(s, artifact)).None?
    ensures artifact.typeId == "problem_statement" && Known(id) ==> CanAccessModule(CompleteModule(s, artifact).completed, id)
  {
    if artifact.typeId == "problem_statement" && Known(id) && id != "problem_statement" {
      NonFoundationalAccess(CompleteModule(s, artifact).completed, id);
    }
  }

  /** Every step keeps the open module openable, and an open module is always shown. */
  lemma {:induction false} StepsValid(s: State, id: string, artifact: StoredArtifact)
    requires Valid(s)
    ensures Valid(Click(s, id)) && Valid(CompleteModule(s, artifact))
    ensures s.selected.Some? ==> Rendered(s).Some?
  {
  }

  /** An open module is handed the first stored artifact of its type. */
  lemma {:induction false} RenderedArtifact(s: State)
    requires Valid(s) && s.selected.Some?
    ensures Rendered(s).Some? && Rendered(s).value.1 == FirstOfType(s.artifacts, s.selected.value)
  {
  }

  /** The `Home` component. */
  class Dashboard {
    var selectedModule: Option<string>
    var completedModules: seq<string>
    var artifacts: seq<StoredArtifact>

    function Current(): State
      reads this
    {
      State(selectedModule, completedModules, artifacts)
    }

    constructor()
      ensures Current() == State(None, [], [])
    {
      selectedModule := None;
      completedModules := [];
      artifacts := [];
    }

    method HandleModuleComplete(artifact: StoredArtifact)
      modifies this
      ensures Current() == CompleteModule(old(Current()), artifact)
    {
      artifacts := artifacts + [artifact];
      completedModules := completedModules + [artifact.typeId];
      selectedModule := None;
    }

    /** The card's click handler. */
    method OnCardClick(id: string)
      modifies this`selectedModule
      ensures Current() == Click(old(Current()), id)
    {
      var entry := Find(Modules, id);
      var hasComponent := entry.Some? && entry.value.component.Some?;
      if CanAccessModule(completedModules, id) && hasComponent {
        selectedModule := Some(id);
      }
    }
  }
}
