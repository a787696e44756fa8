/** The Semantic Scholar innovation agent's tool `research_innovation_idea`:
    the idea in bold, twelve `•`-bulleted sections (one per field of
    `SemanticScholarInnovationResponse`) and a fixed closing text; or, when
    the run raises, the failure text. */
module SemanticScholarInnovation {
  import opened Text
  import opened Markdown
  import opened Schema
  import opened AgentRun

  datatype SemanticScholarInnovationResponse = SemanticScholarInnovationResponse(
    cuttingEdgeResearchFindings: seq<string>,
    novelMethodologies2025: seq<string>,
    emergingInnovationPatterns: seq<string>,
    breakthroughApplications: seq<string>,
    interdisciplinaryConnections: seq<string>,
    futureResearchDirections: seq<string>,
    technologyConvergenceTrends: seq<string>,
    innovationAccelerationFactors: seq<string>,
    paradigmShiftingPapers: seq<string>,
    practicalImplementationInsights: seq<string>,
    researchGapOpportunities: seq<string>,
    nextGenerationApproaches: seq<string>)

  const ResponseContract: Contract := [
    ("cutting_edge_research_findings", StrListKind),
    ("novel_methodologies_2025", StrListKind),
    ("emerging_innovation_patterns", StrListKind),
    ("breakthrough_applications", StrListKind),
    ("interdisciplinary_connections", StrListKind),
    ("future_research_directions", StrListKind),
    ("technology_convergence_trends", StrListKind),
    ("innovation_acceleration_factors", StrListKind),
    ("paradigm_shifting_papers", StrListKind),
    ("practical_implementation_insights", StrListKind),
    ("research_gap_opportunities", StrListKind),
    ("next_generation_approaches", StrListKind)]

  function ResponseFields(r: SemanticScholarInnovationResponse): (fields: seq<Field>)
    ensures Conforms(fields, ResponseContract)
  {
    [ Field("cutting_edge_research_findings", StrList(r.cuttingEdgeResearchFindings)),
      Field("novel_methodologies_2025", StrList(r.novelMethodologies2025)),
      Field("emerging_innovation_patterns", StrList(r.emergingInnovationPatterns)),
      Field("breakthrough_applications", StrList(r.breakthroughApplications)),
      Field("interdisciplinary_connections", StrList(r.interdisciplinaryConnections)),
      Field("future_research_directions", StrList(r.futureResearchDirections)),
      Field("technology_convergence_trends", StrList(r.technologyConvergenceTrends)),
      Field("innovation_acceleration_factors", StrList(r.innovationAccelerationFactors)),
      Field("paradigm_shifting_papers", StrList(r.paradigmShiftingPapers)),
      Field("practical_implementation_insights", StrList(r.practicalImplementationInsights)),
      Field("research_gap_opportunities", StrList(r.researchGapOpportunities)),
      Field("next_generation_approaches", StrList(r.nextGenerationApproaches)) ]
  }

  /** `f"• {item}"` per item. */
  function Dots(items: seq<string>): string
  {
    Bullets("\U{2022} ", items)
  }

  /** The section headers, emoji included, in declaration order. */
  const ResponseHeaders: seq<string> := [
    "\U{1F52C} Cutting-Edge Research Findings (2025)",
    "\U{1F6E0}\U{FE0F} Novel Methodologies 2025",
    "\U{1F31F} Emerging Innovation Patterns",
    "\U{1F4A1} Breakthrough Applications",
    "\U{1F517} Interdisciplinary Connections",
    "\U{1F680} Future Research Directions",
    "\U{26A1} Technology Convergence Trends",
    "\U{1F3AF} Innovation Acceleration Factors",
    "\U{1F4C4} Paradigm Shifting Papers",
    "\U{1F527} Practical Implementation Insights",
    "\U{1F3AA} Research Gap Opportunities",
    "\U{1F52E} Next-Generation Approaches"]

  // The title and the failure prefix are written in two pieces so that the
  // verifier sees their first characters (`#` against `S`), which tell a
  // report from a failure text; it does not look inside longer literals.
  const Title: string := "# " + "Semantic Scholar Innovation Research - 2025 Insights\n\n"

  const IdeaHeader: string := "## Innovation Idea Analysis\n**"

  const IdeaNote: string :=
    "*Comprehensive academic research using Semantic Scholar focused on 2025 breakthrough insights*\n\n---\n\n"

  /** Everything above the first field section: title, the idea in bold,
      the italic note and a rule. */
  function Preamble(idea: string): string
  {
    Title + Layout([Section("Innovation Idea Analysis", "**" + idea + "**")]) + IdeaNote
  }

  /** The closing text after the last section; it mentions no input and no
      result field. */
  const Trailer: string :=
    "---\n\n"
    + "*Generated by Semantic Scholar Innovation Agent - 2025 Research Specialist*\n\n"
    + "## Research Methodology Applied:\n"
    + "- **Parallel Tool Strategy**: Executed 15+ concurrent Semantic Scholar searches\n"
    + "- **2025 Focus**: Exclusively analyzed cutting-edge 2025 publications\n"
    + "- **Multi-Domain Analysis**: Explored innovation across multiple research fields\n"
    + "- **Citation Network Analysis**: Analyzed citation patterns and research networks\n"
    + "- **Interdisciplinary Synthesis**: Connected insights across diverse domains\n"
    + "- **Sequential Thinking**: Methodically orchestrated comprehensive research strategy\n\n"
    + "## Search Optimization:\n"
    + "- **Advanced Filters**: yearStart=2025, yearEnd=2025, minCitations, sortBy=citationCount\n"
    + "- **Parallel Queries**: Multiple simultaneous searches across different angles\n"
    + "- **Batch Processing**: Efficient multi-paper analysis and synthesis\n"
    + "- **Domain Coverage**: AI, computer science, engineering, interdisciplinary fields\n"
    + "- **High-Impact Focus**: Prioritized breakthrough papers and novel methodologies\n\n"
    + "Ready to transform innovative ideas into actionable 2025 research insights!\n"

  /** The twelve field sections, as the template writes them. */
  function ResearchSections(r: SemanticScholarInnovationResponse): seq<Section>
  {
    [ Section("\U{1F52C} Cutting-Edge Research Findings (2025)", Dots(r.cuttingEdgeResearchFindings)),
      Section("\U{1F6E0}\U{FE0F} Novel Methodologies 2025", Dots(r.novelMethodologies2025)),
      Section("\U{1F31F} Emerging Innovation Patterns", Dots(r.emergingInnovationPatterns)),
      Section("\U{1F4A1} Breakthrough Applications", Dots(r.breakthroughApplications)),
      Section("\U{1F517} Interdisciplinary Connections", Dots(r.interdisciplinaryConnections)),
      Section("\U{1F680} Future Research Directions", Dots(r.futureResearchDirections)),
      Section("\U{26A1} Technology Convergence Trends", Dots(r.technologyConvergenceTrends)),
      Section("\U{1F3AF} Innovation Acceleration Factors", Dots(r.innovationAccelerationFactors)),
      Section("\U{1F4C4} Paradigm Shifting Papers", Dots(r.paradigmShiftingPapers)),
      Section("\U{1F527} Practical Implementation Insights", Dots(r.practicalImplementationInsights)),
      Section("\U{1F3AA} Research Gap Opportunities", Dots(r.researchGapOpportunities)),
      Section("\U{1F52E} Next-Generation Approaches", Dots(r.nextGenerationApproaches)) ]
  }

  const FailurePrefix: string := "S" + "emantic Scholar innovation research failed: "

  /** `research_innovation_idea`: the research report when the run
      returns, the failure text when it raises. Every report opens with the
      idea's preamble and closes with the same trailer. */
  function ResearchInnovationIdea(idea: string, run: RunOutcome<SemanticScholarInnovationResponse>): (text: string)
    ensures run.Raised? ==> text == FailurePrefix + run.message
    ensures run.Raised? <==> IsPrefix(FailurePrefix, text)
    ensures run.Returned? ==> IsPrefix(Preamble(idea), text) && IsSuffix(Trailer, text)
    ensures run.Returned? ==> text == Report(Preamble(idea), ResearchSections(run.output), Trailer)
  {
    match run
    case Raised(message) => FailurePrefix + message
    case Returned(r) =>
      var sections := ResearchSections(r);
      ReportFrame(Preamble(idea), sections, Trailer);
      PreambleText(idea);
      assert Preamble(idea)[0] == '#';
      PrefixesExclude(Preamble(idea), FailurePrefix, Report(Preamble(idea), sections, Trailer));
      Report(Preamble(idea), sections, Trailer)
  }

  /** The preamble spelled out. */
  lemma PreambleText(idea: string)
    ensures Preamble(idea) == Title + IdeaHeader + idea + "**\n\n" + IdeaNote
  {
    var s := Section("Innovation Idea Analysis", "**" + idea + "**");
    assert [s][1..] == [];
    assert Layout([s]) == SectionText(s);
    assert "## " + s.header + "\n" + "**" == IdeaHeader;
    assert SectionText(s) == IdeaHeader + idea + "**\n\n";
  }

  /** The idea stands verbatim between `**` marks right after the
      `## Innovation Idea Analysis` line. */
  lemma IdeaVerbatim(idea: string)
    ensures IsPrefix(Title + IdeaHeader, Preamble(idea))
    ensures Preamble(idea)[|Title + IdeaHeader|..][..|idea| + 2] == idea + "**"
  {
    var p := Preamble(idea);
    PreambleText(idea);
    assert p == (Title + IdeaHeader) + (idea + "**\n\n" + IdeaNote);
    assert p[|Title + IdeaHeader|..] == idea + "**" + ("\n\n" + IdeaNote);
  }

  /** The report's sections are the twelve fields of
      `SemanticScholarInnovationResponse` in declaration order, each a
      `•` list. */
  lemma ResearchFollowsDeclaration(r: SemanticScholarInnovationResponse, fmt: real -> string)
    ensures ResearchSections(r) == FieldSections(ResponseFields(r), ResponseHeaders, Dots, fmt)
    ensures Headers(ResearchSections(r)) == ResponseHeaders
  {
  }

  /** Read back from the tool's text: the first section holds one
      `• finding` line per finding, in the response's order. */
  lemma FindingsReadBack(idea: string, r: SemanticScholarInnovationResponse)
    requires |r.cuttingEdgeResearchFindings| >= 1
    requires forall k :: 0 <= k < |r.cuttingEdgeResearchFindings| ==>
      '\n' !in r.cuttingEdgeResearchFindings[k]
    ensures HasSectionLines(ResearchInnovationIdea(idea, Returned(r)),
                            "\U{1F52C} Cutting-Edge Research Findings (2025)",
                            BulletLines("\U{2022} ", r.cuttingEdgeResearchFindings))
  {
    var sections := ResearchSections(r);
    assert ResearchInnovationIdea(idea, Returned(r)) == Report(Preamble(idea), sections, Trailer);
    assert sections[0] == Section("\U{1F52C} Cutting-Edge Research Findings (2025)",
                                  Dots(r.cuttingEdgeResearchFindings));
    SectionLinesInReport(Preamble(idea), sections, Trailer, 0,
                         "\U{1F52C} Cutting-Edge Research Findings (2025)",
                         Dots(r.cuttingEdgeResearchFindings));
    BulletsReadBack("\U{2022} ", r.cuttingEdgeResearchFindings);
    assert Split(Dots(r.cuttingEdgeResearchFindings), '\n')
        == BulletLines("\U{2022} ", r.cuttingEdgeResearchFindings);
  }
}
