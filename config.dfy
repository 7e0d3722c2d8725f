/** The static configuration: the three categories with their keyword lists,
    the scoring weights, the confidence threshold and the supported extensions. */
module Config {

  /** The categories, in the order the keyword table declares them. */
  datatype Category = UniversityDocs | TechnicalWork | CapstoneWork

  /** Declaration order of the keyword table; it is also the tie-break order. */
  const CategoryOrder: seq<Category> := [UniversityDocs, TechnicalWork, CapstoneWork]

  /** The category's key in the keyword table, as recorded in results and in the ledger. */
  function CategoryKey(c: Category): string
  {
    match c
    case UniversityDocs => "UNIVERSITY_DOCS"
    case TechnicalWork => "TECHNICAL_WORK"
    case CapstoneWork => "CAPSTONE_WORK"
  }

  /** The keyword list of each category, in list order, duplicates included. */
  function Keywords(c: Category): seq<string>
  {
    match c
    case UniversityDocs =>
      ["transcript", "semester", "enrollment", "registration",
       "student", "course", "internship", "academic", "approval",
       "application", "degree", "certification", "gpa", "university",
       "campus", "enrollment", "registered", "courses", "standing"]
    case TechnicalWork =>
      ["api", "docker", "devops", "configuration", "automation",
       "infrastructure", "deployment", "code", "technical",
       "development", "integration", "testing", "kubernetes",
       "container", "microservices", "cicd", "github", "jenkins", "game"]
    case CapstoneWork =>
      ["capstone", "project", "proposal", "presentation", "research",
       "data collection", "analysis", "methodology", "thesis",
       "findings", "conclusion", "hypothesis", "experiment",
       "report", "paper", "study", "slides", "results"]
  }

  /** Weight of one keyword hit in the file name. */
  const FilenameWeight: real := 1.5
  /** Weight of one keyword hit in the extracted content. */
  const ContentWeight: real := 1.0
  /** Confidence below this is reported as low confidence. */
  const ScoreThreshold: real := 0.3

  /** The extension table: extension to format tag. */
  const SupportedExtensions: map<string, string> :=
    map[".pdf" := "pdf", ".docx" := "docx", ".xlsx" := "excel",
        ".pptx" := "pptx", ".md" := "markdown", ".txt" := "text"]

  /** Exactly three categories, each declared once, in the stated order. */
  lemma CategoryOrderComplete()
    ensures |CategoryOrder| == 3
    ensures forall c: Category :: c in CategoryOrder
    ensures forall i, j :: 0 <= i < j < |CategoryOrder| ==> CategoryOrder[i] != CategoryOrder[j]
  {
    forall c: Category ensures c in CategoryOrder {
      match c
      case UniversityDocs => assert CategoryOrder[0] == c;
      case TechnicalWork => assert CategoryOrder[1] == c;
      case CapstoneWork => assert CategoryOrder[2] == c;
    }
  }

  /** "enrollment" is listed twice for university documents, at two different places. */
  lemma EnrollmentListedTwice()
    ensures Keywords(UniversityDocs)[2] == Keywords(UniversityDocs)[15] == "enrollment"
  {
  }

  /** Every entry of a list of at least three characters each is non-empty. */
  lemma NoEmptyKeyword(ks: seq<string>)
    requires forall i :: 0 <= i < |ks| ==> |ks[i]| >= 3
    ensures forall k :: k in ks ==> |k| > 0
  {
  }

  /** No keyword is empty, so an empty text holds no hit. */
  lemma KeywordsNonEmpty(c: Category)
    ensures forall k :: k in Keywords(c) ==> |k| > 0
  {
    match c
    case UniversityDocs => NoEmptyKeyword(Keywords(UniversityDocs));
    case TechnicalWork => NoEmptyKeyword(Keywords(TechnicalWork));
    case CapstoneWork => NoEmptyKeyword(Keywords(CapstoneWork));
  }
}
