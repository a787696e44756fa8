/** The Knowledge Synthesizer's four tools, `synthesize_knowledge_domains`,
    `create_insight_maps`, `generate_strategic_brief` and
    `track_emerging_trends`: each turns its agent's output record into a
    Markdown report with one `## ` section per input and per schema field,
    or, when the run raises, into its failure text. */
module KnowledgeSynthesizer {
  import opened Text
  import opened Markdown
  import opened Schema
  import opened AgentRun

  /** The closing text shared by the four reports (the template ends with
      a line break after it). */
  const Footer: string := "---\n*Generated by Knowledge Synthesizer*\n"

  /** `f"- {item}"` per item, the list rule of every report here. */
  function Dashes(items: seq<string>): string
  {
    Bullets("- ", items)
  }

  // ---------------------------------------------------------------------
  // synthesize_knowledge_domains

  datatype KnowledgeSynthesis = KnowledgeSynthesis(
    synthesisSummary: string,
    domainConnections: seq<string>,
    crossDomainInsights: seq<string>,
    convergencePatterns: seq<string>,
    interdisciplinaryOpportunities: seq<string>,
    knowledgeGaps: seq<string>,
    synthesisMethodology: string,
    confidenceScores: seq<(string, real)>,
    supportingEvidence: seq<string>,
    citations: seq<string>)

  const KnowledgeSynthesisContract: Contract := [
    ("synthesis_summary", StrKind),
    ("domain_connections", StrListKind),
    ("cross_domain_insights", StrListKind),
    ("convergence_patterns", StrListKind),
    ("interdisciplinary_opportunities", StrListKind),
    ("knowledge_gaps", StrListKind),
    ("synthesis_methodology", StrKind),
    ("confidence_scores", FloatDictKind),
    ("supporting_evidence", StrListKind),
    ("citations", StrListKind)]

  function SynthesisFields(d: KnowledgeSynthesis): (fields: seq<Field>)
    ensures Conforms(fields, KnowledgeSynthesisContract)
  {
    [ Field("synthesis_summary", Str(d.synthesisSummary)),
      Field("domain_connections", StrList(d.domainConnections)),
      Field("cross_domain_insights", StrList(d.crossDomainInsights)),
      Field("convergence_patterns", StrList(d.convergencePatterns)),
      Field("interdisciplinary_opportunities", StrList(d.interdisciplinaryOpportunities)),
      Field("knowledge_gaps", StrList(d.knowledgeGaps)),
      Field("synthesis_methodology", Str(d.synthesisMethodology)),
      Field("confidence_scores", FloatDict(d.confidenceScores)),
      Field("supporting_evidence", StrList(d.supportingEvidence)),
      Field("citations", StrList(d.citations)) ]
  }

  /** The section header of each field, in declaration order. */
  const SynthesisHeaders: seq<string> := [
    "Synthesis Summary", "Domain Connections", "Cross-Domain Insights",
    "Convergence Patterns", "Interdisciplinary Opportunities", "Knowledge Gaps",
    "Methodology", "Confidence Scores", "Supporting Evidence", "Citations"]

  const SynthesisTitle: string := "# Cross-Domain Knowledge Synthesis\n\n"

  /** The sections of the report, as the template writes them. */
  function SynthesisSections(researchQuestion: string, domains: seq<string>,
                             d: KnowledgeSynthesis, fmt: real -> string): seq<Section>
  {
    [ Section("Research Question", researchQuestion),
      Section("Domains Analyzed", InputList(domains)),
      Section("Synthesis Summary", d.synthesisSummary),
      Section("Domain Connections", Dashes(d.domainConnections)),
      Section("Cross-Domain Insights", Dashes(d.crossDomainInsights)),
      Section("Convergence Patterns", Dashes(d.convergencePatterns)),
      Section("Interdisciplinary Opportunities", Dashes(d.interdisciplinaryOpportunities)),
      Section("Knowledge Gaps", Dashes(d.knowledgeGaps)),
      Section("Methodology", d.synthesisMethodology),
      Section("Confidence Scores", Scores(d.confidenceScores, fmt)),
      Section("Supporting Evidence", Dashes(d.supportingEvidence)),
      Section("Citations", Dashes(d.citations)) ]
  }

  /** `synthesize_knowledge_domains`: the report when the run returns,
      `"Knowledge synthesis failed: " + str(e)` when it raises. */
  function SynthesizeKnowledgeDomains(domains: seq<string>, researchQuestion: string,
                                      run: RunOutcome<KnowledgeSynthesis>,
                                      fmt: real -> string): (text: string)
    ensures run.Raised? ==> text == "Knowledge synthesis failed: " + run.message
    ensures run.Raised? <==> IsPrefix("Knowledge synthesis failed: ", text)
    ensures run.Returned? ==> IsPrefix(SynthesisTitle, text) && IsSuffix(Footer, text)
    ensures run.Returned? ==>
      text == Report(SynthesisTitle, SynthesisSections(researchQuestion, domains, run.output, fmt), Footer)
  {
    match run
    case Raised(message) => "Knowledge synthesis failed: " + message
    case Returned(d) =>
      var sections := SynthesisSections(researchQuestion, domains, d, fmt);
      ReportFrame(SynthesisTitle, sections, Footer);
      PrefixesExclude(SynthesisTitle, "Knowledge synthesis failed: ", Report(SynthesisTitle, sections, Footer));
      Report(SynthesisTitle, sections, Footer)
  }

  /** After the two input sections, the report's sections are the fields
      of `KnowledgeSynthesis` in declaration order, each rendered by the
      rule for its kind. */
  lemma SynthesisFollowsDeclaration(researchQuestion: string, domains: seq<string>,
                                    d: KnowledgeSynthesis, fmt: real -> string)
    ensures SynthesisSections(researchQuestion, domains, d, fmt)
         == [Section("Research Question", researchQuestion),
             Section("Domains Analyzed", InputList(domains))]
            + FieldSections(SynthesisFields(d), SynthesisHeaders, Dashes, fmt)
    ensures Headers(SynthesisSections(researchQuestion, domains, d, fmt))
         == ["Research Question", "Domains Analyzed"] + SynthesisHeaders
  {
  }

  /** The summary and the methodology stand verbatim under their headers,
      and the knowledge gaps keep their header when the list is empty. */
  lemma SynthesisScalarsVerbatim(researchQuestion: string, domains: seq<string>,
                                 d: KnowledgeSynthesis, fmt: real -> string)
    ensures IsInfix(SectionText(Section("Synthesis Summary", d.synthesisSummary)),
                    Report(SynthesisTitle, SynthesisSections(researchQuestion, domains, d, fmt), Footer))
    ensures IsInfix(SectionText(Section("Methodology", d.synthesisMethodology)),
                    Report(SynthesisTitle, SynthesisSections(researchQuestion, domains, d, fmt), Footer))
    ensures d.knowledgeGaps == [] ==>
              IsInfix(SectionText(Section("Knowledge Gaps", "")),
                      Report(SynthesisTitle, SynthesisSections(researchQuestion, domains, d, fmt), Footer))
  {
    var sections := SynthesisSections(researchQuestion, domains, d, fmt);
    SectionInReport(SynthesisTitle, sections, Footer, 2, "Synthesis Summary", d.synthesisSummary);
    SectionInReport(SynthesisTitle, sections, Footer, 8, "Methodology", d.synthesisMethodology);
    if d.knowledgeGaps == [] {
      EmptyBodies("- ", fmt);
      SectionInReport(SynthesisTitle, sections, Footer, 7, "Knowledge Gaps", "");
    }
  }

  /** Read back from the tool's text: the `Domain Connections` section
      holds one `- connection` line per connection, in the record's order. */
  lemma SynthesisConnectionsReadBack(domains: seq<string>, researchQuestion: string,
                                     d: KnowledgeSynthesis, fmt: real -> string)
    requires |d.domainConnections| >= 1
    requires forall k :: 0 <= k < |d.domainConnections| ==> '\n' !in d.domainConnections[k]
    ensures HasSectionLines(SynthesizeKnowledgeDomains(domains, researchQuestion, Returned(d), fmt),
                            "Domain Connections", BulletLines("- ", d.domainConnections))
  {
    var sections := SynthesisSections(researchQuestion, domains, d, fmt);
    SectionLinesInReport(SynthesisTitle, sections, Footer, 3, "Domain Connections", Dashes(d.domainConnections));
    BulletsReadBack("- ", d.domainConnections);
    assert Split(Dashes(d.domainConnections), '\n') == BulletLines("- ", d.domainConnections);
  }

  // ---------------------------------------------------------------------
  // create_insight_maps

  datatype InsightMap = InsightMap(
    mapSummary: string,
    relationshipTypes: seq<string>,
    connectionStrengths: seq<(string, real)>,
    knowledgeClusters: seq<string>,
    bridgingConcepts: seq<string>,
    visualizationElements: seq<string>,
    interactionPatterns: seq<string>,
    hierarchicalStructures: seq<string>,
    networkProperties: seq<(string, real)>,
    recommendedExplorations: seq<string>)

  const InsightMapContract: Contract := [
    ("map_summary", StrKind),
    ("relationship_types", StrListKind),
    ("connection_strengths", FloatDictKind),
    ("knowledge_clusters", StrListKind),
    ("bridging_concepts", StrListKind),
    ("visualization_elements", StrListKind),
    ("interaction_patterns", StrListKind),
    ("hierarchical_structures", StrListKind),
    ("network_properties", FloatDictKind),
    ("recommended_explorations", StrListKind)]

  function InsightMapFields(m: InsightMap): (fields: seq<Field>)
    ensures Conforms(fields, InsightMapContract)
  {
    [ Field("map_summary", Str(m.mapSummary)),
      Field("relationship_types", StrList(m.relationshipTypes)),
      Field("connection_strengths", FloatDict(m.connectionStrengths)),
      Field("knowledge_clusters", StrList(m.knowledgeClusters)),
      Field("bridging_concepts", StrList(m.bridgingConcepts)),
      Field("visualization_elements", StrList(m.visualizationElements)),
      Field("interaction_patterns", StrList(m.interactionPatterns)),
      Field("hierarchical_structures", StrList(m.hierarchicalStructures)),
      Field("network_properties", FloatDict(m.networkProperties)),
      Field("recommended_explorations", StrList(m.recommendedExplorations)) ]
  }

  const InsightMapHeaders: seq<string> := [
    "Map Summary", "Relationship Types", "Connection Strengths",
    "Knowledge Clusters", "Bridging Concepts", "Visualization Elements",
    "Interaction Patterns", "Hierarchical Structures", "Network Properties",
    "Recommended Explorations"]

  const InsightMapTitle: string := "# Knowledge Relationship Map\n\n"

  function InsightMapSections(topics: seq<string>, visualizationType: string,
                              m: InsightMap, fmt: real -> string): seq<Section>
  {
    [ Section("Topics Analyzed", InputList(topics)),
      Section("Visualization Type", visualizationType),
      Section("Map Summary", m.mapSummary),
      Section("Relationship Types", Dashes(m.relationshipTypes)),
      Section("Connection Strengths", Scores(m.connectionStrengths, fmt)),
      Section("Knowledge Clusters", Dashes(m.knowledgeClusters)),
      Section("Bridging Concepts", Dashes(m.bridgingConcepts)),
      Section("Visualization Elements", Dashes(m.visualizationElements)),
      Section("Interaction Patterns", Dashes(m.interactionPatterns)),
      Section("Hierarchical Structures", Dashes(m.hierarchicalStructures)),
      Section("Network Properties", Scores(m.networkProperties, fmt)),
      Section("Recommended Explorations", Dashes(m.recommendedExplorations)) ]
  }

  /** `create_insight_maps`: the map report when the run returns,
      `"Insight mapping failed: " + str(e)` when it raises. The known
      connections only feed the prompt, so they do not appear here. */
  function CreateInsightMaps(topics: seq<string>, visualizationType: string,
                             run: RunOutcome<InsightMap>, fmt: real -> string): (text: string)
    ensures run.Raised? ==> text == "Insight mapping failed: " + run.message
    ensures run.Raised? <==> IsPrefix("Insight mapping failed: ", text)
    ensures run.Returned? ==> IsPrefix(InsightMapTitle, text) && IsSuffix(Footer, text)
    ensures run.Returned? ==>
      text == Report(InsightMapTitle, InsightMapSections(topics, visualizationType, run.output, fmt), Footer)
  {
    match run
    case Raised(message) => "Insight mapping failed: " + message
    case Returned(m) =>
      var sections := InsightMapSections(topics, visualizationType, m, fmt);
      ReportFrame(InsightMapTitle, sections, Footer);
      PrefixesExclude(InsightMapTitle, "Insight mapping failed: ", Report(InsightMapTitle, sections, Footer));
      Report(InsightMapTitle, sections, Footer)
  }

  /** After the two input sections, the map's sections are the fields of
      `InsightMap` in declaration order, each rendered by its kind's rule. */
  lemma InsightMapFollowsDeclaration(topics: seq<string>, visualizationType: string,
                                     m: InsightMap, fmt: real -> string)
    ensures InsightMapSections(topics, visualizationType, m, fmt)
         == [Section("Topics Analyzed", InputList(topics)),
             Section("Visualization Type", visualizationType)]
            + FieldSections(InsightMapFields(m), InsightMapHeaders, Dashes, fmt)
    ensures Headers(InsightMapSections(topics, visualizationType, m, fmt))
         == ["Topics Analyzed", "Visualization Type"] + InsightMapHeaders
  {
  }

  /** Read back from the tool's text: the `Connection Strengths` section
      holds one `- key: <fmt(value)>` line per entry, in iteration order. */
  lemma InsightMapStrengthsReadBack(topics: seq<string>, visualizationType: string,
                                    m: InsightMap, fmt: real -> string)
    requires |m.connectionStrengths| >= 1
    requires forall k :: 0 <= k < |m.connectionStrengths| ==>
      '\n' !in m.connectionStrengths[k].0 && '\n' !in fmt(m.connectionStrengths[k].1)
    ensures HasSectionLines(CreateInsightMaps(topics, visualizationType, Returned(m), fmt),
                            "Connection Strengths", ScoreLines(m.connectionStrengths, fmt))
  {
    var sections := InsightMapSections(topics, visualizationType, m, fmt);
    SectionLinesInReport(InsightMapTitle, sections, Footer, 4, "Connection Strengths",
                         Scores(m.connectionStrengths, fmt));
    ScoresReadBack(m.connectionStrengths, fmt);
    assert Split(Scores(m.connectionStrengths, fmt), '\n') == ScoreLines(m.connectionStrengths, fmt);
  }

  // ---------------------------------------------------------------------
  // generate_strategic_brief

  datatype StrategicBrief = StrategicBrief(
    executiveSummary: string,
    keyFindings: seq<string>,
    strategicImplications: seq<string>,
    stakeholderImpacts: seq<(string, string)>,
    riskAssessments: seq<string>,
    opportunityAnalysis: seq<string>,
    competitiveLandscape: seq<string>,
    implementationRoadmap: seq<string>,
    successMetrics: seq<string>,
    recommendations: seq<string>)

  const StrategicBriefContract: Contract := [
    ("executive_summary", StrKind),
    ("key_findings", StrListKind),
    ("strategic_implications", StrListKind),
    ("stakeholder_impacts", StrDictKind),
    ("risk_assessments", StrListKind),
    ("opportunity_analysis", StrListKind),
    ("competitive_landscape", StrListKind),
    ("implementation_roadmap", StrListKind),
    ("success_metrics", StrListKind),
    ("recommendations", StrListKind)]

  function StrategicBriefFields(b: StrategicBrief): (fields: seq<Field>)
    ensures Conforms(fields, StrategicBriefContract)
  {
    [ Field("executive_summary", Str(b.executiveSummary)),
      Field("key_findings", StrList(b.keyFindings)),
      Field("strategic_implications", StrList(b.strategicImplications)),
      Field("stakeholder_impacts", StrDict(b.stakeholderImpacts)),
      Field("risk_assessments", StrList(b.riskAssessments)),
      Field("opportunity_analysis", StrList(b.opportunityAnalysis)),
      Field("competitive_landscape", StrList(b.competitiveLandscape)),
      Field("implementation_roadmap", StrList(b.implementationRoadmap)),
      Field("success_metrics", StrList(b.successMetrics)),
      Field("recommendations", StrList(b.recommendations)) ]
  }

  const StrategicBriefHeaders: seq<string> := [
    "Executive Summary", "Key Findings", "Strategic Implications",
    "Stakeholder Impacts", "Risk Assessment", "Opportunity Analysis",
    "Competitive Landscape", "Implementation Roadmap", "Success Metrics",
    "Recommendations"]

  const StrategicBriefTitle: string := "# Strategic Intelligence Brief\n\n"

  function StrategicBriefSections(topic: string, stakeholders: seq<string>,
                                  objectives: seq<string>, b: StrategicBrief): seq<Section>
  {
    [ Section("Topic", topic),
      Section("Key Stakeholders", InputList(stakeholders)),
      Section("Strategic Objectives", InputList(objectives)),
      Section("Executive Summary", b.executiveSummary),
      Section("Key Findings", Dashes(b.keyFindings)),
      Section("Strategic Implications", Dashes(b.strategicImplications)),
      Section("Stakeholder Impacts", Pairs(b.stakeholderImpacts)),
      Section("Risk Assessment", Dashes(b.riskAssessments)),
      Section("Opportunity Analysis", Dashes(b.opportunityAnalysis)),
      Section("Competitive Landscape", Dashes(b.competitiveLandscape)),
      Section("Implementation Roadmap", Dashes(b.implementationRoadmap)),
      Section("Success Metrics", Dashes(b.successMetrics)),
      Section("Recommendations", Dashes(b.recommendations)) ]
  }

  /** `generate_strategic_brief`: the brief when the run returns,
      `"Strategic briefing failed: " + str(e)` when it raises. */
  function GenerateStrategicBrief(topic: string, stakeholders: seq<string>, objectives: seq<string>,
                                  run: RunOutcome<StrategicBrief>): (text: string)
    ensures run.Raised? ==> text == "Strategic briefing failed: " + run.message
    ensures run.Raised? <==> IsPrefix("Strategic briefing failed: ", text)
    ensures run.Returned? ==> IsPrefix(StrategicBriefTitle, text) && IsSuffix(Footer, text)
    ensures run.Returned? ==>
      text == Report(StrategicBriefTitle, StrategicBriefSections(topic, stakeholders, objectives, run.output), Footer)
  {
    match run
    case Raised(message) => "Strategic briefing failed: " + message
    case Returned(b) =>
      var sections := StrategicBriefSections(topic, stakeholders, objectives, b);
      ReportFrame(StrategicBriefTitle, sections, Footer);
      PrefixesExclude(StrategicBriefTitle, "Strategic briefing failed: ", Report(StrategicBriefTitle, sections, Footer));
      Report(StrategicBriefTitle, sections, Footer)
  }

  /** After the three input sections, the brief's sections are the fields
      of `StrategicBrief` in declaration order, each rendered by its kind's
      rule (no field of this schema holds numbers, so any `fmt` will do). */
  lemma StrategicBriefFollowsDeclaration(topic: string, stakeholders: seq<string>,
                                         objectives: seq<string>, b: StrategicBrief,
                                         fmt: real -> string)
    ensures StrategicBriefSections(topic, stakeholders, objectives, b)
         == [Section("Topic", topic),
             Section("Key Stakeholders", InputList(stakeholders)),
             Section("Strategic Objectives", InputList(objectives))]
            + FieldSections(StrategicBriefFields(b), StrategicBriefHeaders, Dashes, fmt)
    ensures Headers(StrategicBriefSections(topic, stakeholders, objectives, b))
         == ["Topic", "Key Stakeholders", "Strategic Objectives"] + StrategicBriefHeaders
  {
  }

  /** Read back from the tool's text: the `Stakeholder Impacts` section
      holds one `- **stakeholder**: impact` line per entry, in iteration
      order. */
  lemma StrategicBriefImpactsReadBack(topic: string, stakeholders: seq<string>,
                                      objectives: seq<string>, b: StrategicBrief)
    requires |b.stakeholderImpacts| >= 1
    requires forall k :: 0 <= k < |b.stakeholderImpacts| ==>
      '\n' !in b.stakeholderImpacts[k].0 && '\n' !in b.stakeholderImpacts[k].1
    ensures HasSectionLines(GenerateStrategicBrief(topic, stakeholders, objectives, Returned(b)),
                            "Stakeholder Impacts", PairLines(b.stakeholderImpacts))
  {
    var sections := StrategicBriefSections(topic, stakeholders, objectives, b);
    SectionLinesInReport(StrategicBriefTitle, sections, Footer, 6, "Stakeholder Impacts",
                         Pairs(b.stakeholderImpacts));
    PairsReadBack(b.stakeholderImpacts);
    assert Split(Pairs(b.stakeholderImpacts), '\n') == PairLines(b.stakeholderImpacts);
  }

  // ---------------------------------------------------------------------
  // track_emerging_trends

  datatype TrendAnalysis = TrendAnalysis(
    trendSummary: string,
    emergingPatterns: seq<string>,
    trendTrajectories: seq<(string, string)>,
    disruptionIndicators: seq<string>,
    convergenceSignals: seq<string>,
    weakSignals: seq<string>,
    scenarioProjections: seq<string>,
    influenceFactors: seq<string>,
    predictionConfidence: seq<(string, real)>,
    monitoringRecommendations: seq<string>)

  const TrendAnalysisContract: Contract := [
    ("trend_summary", StrKind),
    ("emerging_patterns", StrListKind),
    ("trend_trajectories", StrDictKind),
    ("disruption_indicators", StrListKind),
    ("convergence_signals", StrListKind),
    ("weak_signals", StrListKind),
    ("scenario_projections", StrListKind),
    ("influence_factors", StrListKind),
    ("prediction_confidence", FloatDictKind),
    ("monitoring_recommendations", StrListKind)]

  function TrendAnalysisFields(t: TrendAnalysis): (fields: seq<Field>)
    ensures Conforms(fields, TrendAnalysisContract)
  {
    [ Field("trend_summary", Str(t.trendSummary)),
      Field("emerging_patterns", StrList(t.emergingPatterns)),
      Field("trend_trajectories", StrDict(t.trendTrajectories)),
      Field("disruption_indicators", StrList(t.disruptionIndicators)),
      Field("convergence_signals", StrList(t.convergenceSignals)),
      Field("weak_signals", StrList(t.weakSignals)),
      Field("scenario_projections", StrList(t.scenarioProjections)),
      Field("influence_factors", StrList(t.influenceFactors)),
      Field("prediction_confidence", FloatDict(t.predictionConfidence)),
      Field("monitoring_recommendations", StrList(t.monitoringRecommendations)) ]
  }

  const TrendAnalysisHeaders: seq<string> := [
    "Trend Summary", "Emerging Patterns", "Trend Trajectories",
    "Disruption Indicators", "Convergence Signals", "Weak Signals",
    "Scenario Projections", "Influence Factors", "Prediction Confidence",
    "Monitoring Recommendations"]

  const TrendAnalysisTitle: string := "# Emerging Trend Analysis\n\n"

  function TrendAnalysisSections(domain: string, timeframe: string, sources: seq<string>,
                                 t: TrendAnalysis, fmt: real -> string): seq<Section>
  {
    [ Section("Domain", domain),
      Section("Timeframe", timeframe),
      Section("Sources Analyzed", InputList(sources)),
      Section("Trend Summary", t.trendSummary),
      Section("Emerging Patterns", Dashes(t.emergingPatterns)),
      Section("Trend Trajectories", Pairs(t.trendTrajectories)),
      Section("Disruption Indicators", Dashes(t.disruptionIndicators)),
      Section("Convergence Signals", Dashes(t.convergenceSignals)),
      Section("Weak Signals", Dashes(t.weakSignals)),
      Section("Scenario Projections", Dashes(t.scenarioProjections)),
      Section("Influence Factors", Dashes(t.influenceFactors)),
      Section("Prediction Confidence", Scores(t.predictionConfidence, fmt)),
      Section("Monitoring Recommendations", Dashes(t.monitoringRecommendations)) ]
  }

  /** `track_emerging_trends`: the trend report when the run returns,
      `"Trend analysis failed: " + str(e)` when it raises. */
  function TrackEmergingTrends(domain: string, timeframe: string, sources: seq<string>,
                               run: RunOutcome<TrendAnalysis>, fmt: real -> string): (text: string)
    ensures run.Raised? ==> text == "Trend analysis failed: " + run.message
    ensures run.Raised? <==> IsPrefix("Trend analysis failed: ", text)
    ensures run.Returned? ==> IsPrefix(TrendAnalysisTitle, text) && IsSuffix(Footer, text)
    ensures run.Returned? ==>
      text == Report(TrendAnalysisTitle, TrendAnalysisSections(domain, timeframe, sources, run.output, fmt), Footer)
  {
    match run
    case Raised(message) => "Trend analysis failed: " + message
    case Returned(t) =>
      var sections := TrendAnalysisSections(domain, timeframe, sources, t, fmt);
      ReportFrame(TrendAnalysisTitle, sections, Footer);
      PrefixesExclude(TrendAnalysisTitle, "Trend analysis failed: ", Report(TrendAnalysisTitle, sections, Footer));
      Report(TrendAnalysisTitle, sections, Footer)
  }

  /** After the three input sections, the trend report's sections are the
      fields of `TrendAnalysis` in declaration order, each rendered by its
      kind's rule. */
  lemma TrendAnalysisFollowsDeclaration(domain: string, timeframe: string, sources: seq<string>,
                                        t: TrendAnalysis, fmt: real -> string)
    ensures TrendAnalysisSections(domain, timeframe, sources, t, fmt)
         == [Section("Domain", domain),
             Section("Timeframe", timeframe),
             Section("Sources Analyzed", InputList(sources))]
            + FieldSections(TrendAnalysisFields(t), TrendAnalysisHeaders, Dashes, fmt)
    ensures Headers(TrendAnalysisSections(domain, timeframe, sources, t, fmt))
         == ["Domain", "Timeframe", "Sources Analyzed"] + TrendAnalysisHeaders
  {
  }

  /** Read back from the tool's text: the `Emerging Patterns` section
      holds one `- pattern` line per pattern, in the record's order. */
  lemma TrendPatternsReadBack(domain: string, timeframe: string, sources: seq<string>,
                              t: TrendAnalysis, fmt: real -> string)
    requires |t.emergingPatterns| >= 1
    requires forall k :: 0 <= k < |t.emergingPatterns| ==> '\n' !in t.emergingPatterns[k]
    ensures HasSectionLines(TrackEmergingTrends(domain, timeframe, sources, Returned(t), fmt),
                            "Emerging Patterns", BulletLines("- ", t.emergingPatterns))
  {
    var sections := TrendAnalysisSections(domain, timeframe, sources, t, fmt);
    SectionLinesInReport(TrendAnalysisTitle, sections, Footer, 4, "Emerging Patterns",
                         Dashes(t.emergingPatterns));
    BulletsReadBack("- ", t.emergingPatterns);
    assert Split(Dashes(t.emergingPatterns), '\n') == BulletLines("- ", t.emergingPatterns);
  }
}
