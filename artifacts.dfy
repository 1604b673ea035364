/** The artifact vocabulary shared by the pages and modules (declared in
    app/types/index.ts). */
module Artifacts {

  datatype ArtifactType = ProblemStatement | CustomerPersona | InterviewGuide | InterviewInsights | MarketSizing

  /** The wire identifier of each artifact type. */
  function TypeId(t: ArtifactType): string {
    match t
    case ProblemStatement => "problem_statement"
    case CustomerPersona => "customer_persona"
    case InterviewGuide => "interview_guide"
    case InterviewInsights => "interview_insights"
    case MarketSizing => "market_sizing"
  }

  const AllTypes: seq<ArtifactType> :=
    [ProblemStatement, CustomerPersona, InterviewGuide, InterviewInsights, MarketSizing]

  datatype Status = Draft | Complete

  /** The journey stage an artifact belongs to (only `problem` is used by the modules). */
  datatype ModuleId = Problem | Solution | Product | Gtm

  /** An artifact as the persistence service returns it; its content is opaque here. */
  datatype StoredArtifact = StoredArtifact(id: string, typeId: string)
}
