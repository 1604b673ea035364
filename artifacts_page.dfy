/** The artifact library page (app/artifacts/page.tsx): the list loaded once when
    the page mounts, the artifact opened in the detail pane, and deletion. The
    persistence service is a parameter: each request's outcome is an input. */
module ArtifactsPage {
  import opened Options
  import opened Artifacts

  /** `artifactNames[type]`: the display name of a type identifier, if it has one. */
  function NameOf(typeId: string): Option<string> {
    if typeId == "problem_statement" then Some("Problem Statement")
    else if typeId == "customer_persona" then Some("Customer Persona")
    else if typeId == "interview_guide" then Some("Interview Guide")
    else if typeId == "interview_insights" then Some("Interview Insights")
    else if typeId == "market_sizing" then Some("Market Sizing")
    else None
  }

  /** Every artifact type has a display name, and no two types share one. */
  lemma {:induction false} NamesCoverTypes(t: ArtifactType, u: ArtifactType)
    ensures t in AllTypes && NameOf(TypeId(t)).Some?
    ensures t != u ==> NameOf(TypeId(t)) != NameOf(TypeId(u))
  {
  }

  /** `artifacts.filter(a => a.id !== id)`. */
  function Remove(artifacts: seq<StoredArtifact>, id: string): (r: seq<StoredArtifact>)
    ensures |r| <= |artifacts|
    ensures forall a :: a in r <==> a in artifacts && a.id != id
  {
    if artifacts == [] then []
    else (if artifacts[0].id != id then [artifacts[0]] else []) + Remove(artifacts[1..], id)
  }

  /** Removal keeps the order of what is left: removing from two lists one after the
      other is removing from each. */
  lemma {:induction false} RemoveAppend(a: seq<StoredArtifact>, b: seq<StoredArtifact>, id: string)
    ensures Remove(a + b, id) == Remove(a, id) + Remove(b, id)
  {
    if a == [] {
      assert a + b == b;
    } else {
      assert (a + b)[1..] == a[1..] + b;
      RemoveAppend(a[1..], b, id);
    }
  }

  /** A list without the id is left as it is. */
  lemma {:induction false} RemoveAbsent(artifacts: seq<StoredArtifact>, id: string)
    requires forall a :: a in artifacts ==> a.id != id
    ensures Remove(artifacts, id) == artifacts
  {
    if artifacts != [] {
      assert forall a :: a in artifacts[1..] ==> a in artifacts;
      RemoveAbsent(artifacts[1..], id);
    }
  }

  /** The page's state. */
  datatype State = State(artifacts: seq<StoredArtifact>, loading: bool, selected: Option<StoredArtifact>)

  const Initial := State([], true, None)

  /** Nothing is open while the list loads, and the open artifact is one in the list. */
  predicate Valid(s: State) {
    && (s.loading ==> s.selected.None?)
    && (s.selected.Some? ==> s.selected.value in s.artifacts)
  }

  /** What the list request comes back with: the artifacts of an ok response, or
      nothing usable (a failed response, a network error, unreadable content). */
  datatype FetchOutcome = Fetched(list: seq<StoredArtifact>) | FetchFailed

  /** What the delete request comes back with. */
  datatype DeleteOutcome = Deleted | DeleteFailed

  /** `fetchArtifacts`. */
  function Fetch(s: State, outcome: FetchOutcome): State {
    match outcome
    case Fetched(list) => s.(artifacts := list, loading := false)
    case FetchFailed => s.(loading := false)
  }

  /** Clicking the `i`-th card of the list, which is shown once loading is over. */
  function Select(s: State, i: nat): State {
    if !s.loading && i < |s.artifacts| then s.(selected := Some(s.artifacts[i])) else s
  }

  /** `deleteArtifact(id)` with the user's answer to the confirmation and the
      request's outcome. */
  function Delete(s: State, id: string, confirmed: bool, outcome: DeleteOutcome): State {
    if !confirmed || outcome.DeleteFailed? then s
    else
      s.(artifacts := Remove(s.artifacts, id),
         selected := if s.selected.Some? && s.selected.value.id == id then None else s.selected)
  }

  /** The fetch runs once, when the page mounts and is still loading. Loading ends
      whatever the outcome; a failure leaves the (empty) list as it was. */
  lemma {:induction false} FetchEndsLoading(s: State, outcome: FetchOutcome)
    requires Valid(s) && s.loading
    ensures !Fetch(s, outcome).loading && Valid(Fetch(s, outcome))
    ensures outcome.FetchFailed? ==> Fetch(s, outcome).artifacts == s.artifacts
    ensures outcome.Fetched? ==> Fetch(s, outcome).artifacts == outcome.list
  {
  }

  /** A declined confirmation or a failed request changes nothing. */
  lemma {:induction false} DeleteUnchanged(s: State, id: string, confirmed: bool, outcome: DeleteOutcome)
    requires !confirmed || outcome == DeleteFailed
    ensures Delete(s, id, confirmed, outcome) == s
  {
  }

  /** After a confirmed, successful delete no artifact with the id remains, every
      other one does in its order, and the open artifact is closed exactly when it
      is the deleted one. */
  lemma {:induction false} DeleteSucceeded(s: State, id: string)
    ensures var t := Delete(s, id, true, Deleted);
      && t.artifacts == Remove(s.artifacts, id)
      && (forall a :: a in t.artifacts <==> a in s.artifacts && a.id != id)
      && (t.selected.None? <==> s.selected.None? || s.selected.value.id == id)
      && (t.selected.Some? ==> t.selected == s.selected)
      && t.loading == s.loading
  {
  }

  /** Every step keeps the state valid. */
  lemma {:induction false} StepsValid(s: State, i: nat, id: string, confirmed: bool, outcome: DeleteOutcome)
    requires Valid(s)
    ensures Valid(Select(s, i)) && Valid(Delete(s, id, confirmed, outcome))
  {
  }

  /** The `ArtifactsPage` component. */
  class Page {
    var artifacts: seq<StoredArtifact>
    var loading: bool
    var selectedArtifact: Option<StoredArtifact>

    function Current(): State
      reads this
    {
      State(artifacts, loading, selectedArtifact)
    }

    constructor()
      ensures Current() == Initial
    {
      artifacts := [];
      loading := true;
      selectedArtifact := None;
    }

    method FetchArtifacts(outcome: FetchOutcome)
      modifies this`artifacts, this`loading
      ensures Current() == Fetch(old(Current()), outcome)
      ensures !loading
    {
      if outcome.Fetched? {
        artifacts := outcome.list;
      }
      loading := false;
    }

    method SelectArtifact(i: nat)
      modifies this`selectedArtifact
      ensures Current() == Select(old(Current()), i)
    {
      if !loading && i < |artifacts| {
        selectedArtifact := Some(artifacts[i]);
      }
    }

    method DeleteArtifact(id: string, confirmed: bool, outcome: DeleteOutcome)
      modifies this`artifacts, this`selectedArtifact
      ensures Current() == Delete(old(Current()), id, confirmed, outcome)
    {
      if !confirmed {
        return;
      }
      if outcome == Deleted {
        artifacts := Remove(artifacts, id);
        if selectedArtifact.Some? && selectedArtifact.value.id == id {
          selectedArtifact := None;
        }
      }
    }
  }
}
