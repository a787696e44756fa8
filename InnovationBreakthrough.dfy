/** The innovation breakthrough agent's tool
    `breakthrough_innovation_roadblock`: the roadblock, ten sections (one
    per field of `InnovationBreakthroughResponse`) whose items are printed
    as a bold label and a description, and a fixed closing text; or, when
    the run raises, the failure text. */
module InnovationBreakthrough {
  import opened Text
  import opened Markdown
  import opened Schema
  import opened AgentRun

  datatype InnovationBreakthroughResponse = InnovationBreakthroughResponse(
    novelPerspectives: seq<string>,
    creativeApproaches: seq<string>,
    firstPrinciplesInsights: seq<string>,
    breakthroughOpportunities: seq<string>,
    implementationStrategies: seq<string>,
    unconventionalSolutions: seq<string>,
    crossDomainConnections: seq<string>,
    paradigmShifts: seq<string>,
    innovationFrameworks: seq<string>,
    nextExplorationPaths: seq<string>)

  const ResponseContract: Contract := [
    ("novel_perspectives", StrListKind),
    ("creative_approaches", StrListKind),
    ("first_principles_insights", StrListKind),
    ("breakthrough_opportunities", StrListKind),
    ("implementation_strategies", StrListKind),
    ("unconventional_solutions", StrListKind),
    ("cross_domain_connections", StrListKind),
    ("paradigm_shifts", StrListKind),
    ("innovation_frameworks", StrListKind),
    ("next_exploration_paths", StrListKind)]

  function ResponseFields(r: InnovationBreakthroughResponse): (fields: seq<Field>)
    ensures Conforms(fields, ResponseContract)
  {
    [ Field("novel_perspectives", StrList(r.novelPerspectives)),
      Field("creative_approaches", StrList(r.creativeApproaches)),
      Field("first_principles_insights", StrList(r.firstPrinciplesInsights)),
      Field("breakthrough_opportunities", StrList(r.breakthroughOpportunities)),
      Field("implementation_strategies", StrList(r.implementationStrategies)),
      Field("unconventional_solutions", StrList(r.unconventionalSolutions)),
      Field("cross_domain_connections", StrList(r.crossDomainConnections)),
      Field("paradigm_shifts", StrList(r.paradigmShifts)),
      Field("innovation_frameworks", StrList(r.innovationFrameworks)),
      Field("next_exploration_paths", StrList(r.nextExplorationPaths)) ]
  }

  /** The label and description of one item: the label is
      `item.split(':')[0]`; the description is `item.split(':', 1)[1]` when
      the item has a colon and the whole item otherwise. */
  function SplitLabel(item: string): (r: (string, string))
    ensures ':' !in r.0
    ensures ':' in item ==> r.0 + ":" + r.1 == item
    ensures ':' !in item ==> r.0 == item && r.1 == item
    ensures |item| > 0 && item[0] == ':' ==> r.0 == ""
  {
    SplitFirstPiece(item, ':');
    var tag := Split(item, ':')[0];
    var description := if ':' in item then SplitOnce(item, ':')[1] else item;
    (tag, description)
  }

  /** The split is the only one that could have been meant: a colon-free
      label, a colon, then the description. */
  lemma SplitLabelUnique(item: string, tag: string, description: string)
    requires ':' !in tag
    requires tag + ":" + description == item
    ensures SplitLabel(item) == (tag, description)
  {
    var r := SplitLabel(item);
    assert item[|tag|] == ':';
    var n := |r.0|;
    assert r.0 == item[..n] == tag;
    assert r.1 == item[n + 1..] == description;
  }

  /** `f"• **{label}**: {description}"` for one item. */
  function LabeledLine(item: string): string
  {
    "\U{2022} **" + SplitLabel(item).0 + "**: " + SplitLabel(item).1
  }

  function LabeledLines(items: seq<string>): seq<string>
  {
    seq(|items|, i requires 0 <= i < |items| => LabeledLine(items[i]))
  }

  /** The list rule of this report: one labeled line per item. */
  function LabeledBullets(items: seq<string>): string
  {
    Join("\n", LabeledLines(items))
  }

  /** An item without a colon is printed as both label and description;
      the space after a colon stays in the description, next to the space
      the template puts after `**:`. */
  lemma LabeledLineExamples(item: string)
    ensures ':' !in item ==> LabeledLine(item) == "\U{2022} **" + item + "**: " + item
    ensures LabeledLine("A: b") == "\U{2022} **A**:  b"
    ensures LabeledLine(":x") == "\U{2022} ****: x"
  {
    SplitLabelUnique("A: b", "A", " b");
    SplitLabelUnique(":x", "", "x");
  }

  /** A labeled list whose items have no line break reads back as one
      labeled line per item, in the list's order. */
  lemma LabeledBulletsReadBack(items: seq<string>)
    requires |items| >= 1
    requires forall k :: 0 <= k < |items| ==> '\n' !in items[k]
    ensures |Split(LabeledBullets(items), '\n')| == |items|
    ensures forall k :: 0 <= k < |items| ==>
      Split(LabeledBullets(items), '\n')[k] == LabeledLine(items[k])
  {
    var lines := LabeledLines(items);
    forall k | 0 <= k < |lines| ensures '\n' !in lines[k] {
      var r := SplitLabel(items[k]);
      assert lines[k] == "\U{2022} **" + r.0 + "**: " + r.1;
      if ':' in items[k] {
        assert items[k] == r.0 + ":" + r.1;
      }
    }
    JoinedLines('\n', lines);
  }

  const ResponseHeaders: seq<string> := [
    "\U{1F50D} Novel Perspectives",
    "\U{1F680} Creative Approaches",
    "\U{1F52C} First Principles Insights",
    "\U{1F4A1} Breakthrough Opportunities",
    "\U{2699}\U{FE0F} Implementation Strategies",
    "\U{1F3AF} Unconventional Solutions",
    "\U{1F310} Cross-Domain Connections",
    "\U{1F504} Paradigm Shifts",
    "\U{1F4CB} Innovation Frameworks",
    "\U{1F52E} Next Exploration Paths"]

  const Title: string := "# Innovation Breakthrough Analysis\n\n"

  /** Everything above the first field section: title, the roadblock
      under its header, and a rule. */
  function Preamble(roadblock: string): string
  {
    Title + Layout([Section("Roadblock Challenge", roadblock)]) + "---\n\n"
  }

  /** The closing text after the last section; it mentions no input and no
      result field. */
  const Trailer: string :=
    "---\n\n"
    + "*Generated by Innovation Breakthrough Agent - Your 300 IQ Creative Catalyst*\n\n"
    + "## Key Innovation Principles Applied:\n"
    + "- **First Principles Thinking**: Deconstructed the challenge to fundamental components\n"
    + "- **Analogical Reasoning**: Drew insights from unexpected domains and patterns\n"
    + "- **Constraint Removal**: Challenged assumed limitations and conventional boundaries\n"
    + "- **Combinatorial Innovation**: Merged disparate concepts for novel solutions\n"
    + "- **Edge Case Exploration**: Found breakthrough insights in extreme scenarios\n"
    + "- **Pattern Disruption**: Identified and broke limiting thought patterns\n\n"
    + "## Breakthrough Activation Protocol:\n"
    + "1. **Perspective Shift**: Adopt the most compelling novel perspective\n"
    + "2. **Rapid Prototyping**: Implement the most promising unconventional solution\n"
    + "3. **Cross-Domain Integration**: Apply the most relevant cross-domain insight\n"
    + "4. **Paradigm Implementation**: Execute the most transformative paradigm shift\n"
    + "5. **Innovation Acceleration**: Follow the most promising exploration path\n\n"
    + "Ready to transform your roadblock into a breakthrough opportunity!\n"

  /** The ten field sections, as the template writes them. */
  function BreakthroughSections(r: InnovationBreakthroughResponse): seq<Section>
  {
    [ Section("\U{1F50D} Novel Perspectives", LabeledBullets(r.novelPerspectives)),
      Section("\U{1F680} Creative Approaches", LabeledBullets(r.creativeApproaches)),
      Section("\U{1F52C} First Principles Insights", LabeledBullets(r.firstPrinciplesInsights)),
      Section("\U{1F4A1} Breakthrough Opportunities", LabeledBullets(r.breakthroughOpportunities)),
      Section("\U{2699}\U{FE0F} Implementation Strategies", LabeledBullets(r.implementationStrategies)),
      Section("\U{1F3AF} Unconventional Solutions", LabeledBullets(r.unconventionalSolutions)),
      Section("\U{1F310} Cross-Domain Connections", LabeledBullets(r.crossDomainConnections)),
      Section("\U{1F504} Paradigm Shifts", LabeledBullets(r.paradigmShifts)),
      Section("\U{1F4CB} Innovation Frameworks", LabeledBullets(r.innovationFrameworks)),
      Section("\U{1F52E} Next Exploration Paths", LabeledBullets(r.nextExplorationPaths)) ]
  }

  const FailurePrefix: string := "Innovation breakthrough analysis failed: "

  /** `breakthrough_innovation_roadblock`: the breakthrough report when the
      run returns, the failure text when it raises. Every report opens
      with the roadblock's preamble and closes with the same trailer. */
  function BreakthroughInnovationRoadblock(roadblock: string,
                                           run: RunOutcome<InnovationBreakthroughResponse>): (text: string)
    ensures run.Raised? ==> text == FailurePrefix + run.message
    ensures run.Raised? <==> IsPrefix(FailurePrefix, text)
    ensures run.Returned? ==> IsPrefix(Preamble(roadblock), text) && IsSuffix(Trailer, text)
    ensures run.Returned? ==> text == Report(Preamble(roadblock), BreakthroughSections(run.output), Trailer)
  {
    match run
    case Raised(message) => FailurePrefix + message
    case Returned(r) =>
      var sections := BreakthroughSections(r);
      ReportFrame(Preamble(roadblock), sections, Trailer);
      assert Preamble(roadblock)[0] == '#';
      PrefixesExclude(Preamble(roadblock), FailurePrefix, Report(Preamble(roadblock), sections, Trailer));
      Report(Preamble(roadblock), sections, Trailer)
  }

  /** The roadblock stands verbatim on the line after its header. */
  lemma RoadblockVerbatim(roadblock: string)
    ensures Preamble(roadblock)
         == Title + "## Roadblock Challenge\n" + roadblock + "\n\n---\n\n"
  {
    var s := Section("Roadblock Challenge", roadblock);
    assert [s][1..] == [];
    assert Layout([s]) == SectionText(s);
  }

  /** The report's sections are the ten fields of
      `InnovationBreakthroughResponse` in declaration order, each a labeled
      list. */
  lemma BreakthroughFollowsDeclaration(r: InnovationBreakthroughResponse, fmt: real -> string)
    ensures BreakthroughSections(r) == FieldSections(ResponseFields(r), ResponseHeaders, LabeledBullets, fmt)
    ensures Headers(BreakthroughSections(r)) == ResponseHeaders
  {
    var fields := ResponseFields(r);
    var sections, rendered := BreakthroughSections(r), FieldSections(fields, ResponseHeaders, LabeledBullets, fmt);
    forall i | 0 <= i < |sections| ensures sections[i] == rendered[i] {
      assert fields[i].value.StrList?;
      assert sections[i] == Section(ResponseHeaders[i], LabeledBullets(fields[i].value.items));
    }
  }

  /** Read back from the tool's text: the first section holds one labeled
      line per perspective, in the response's order. */
  lemma PerspectivesReadBack(roadblock: string, r: InnovationBreakthroughResponse)
    requires |r.novelPerspectives| >= 1
    requires forall k :: 0 <= k < |r.novelPerspectives| ==> '\n' !in r.novelPerspectives[k]
    ensures HasSectionLines(BreakthroughInnovationRoadblock(roadblock, Returned(r)),
                            "\U{1F50D} Novel Perspectives", LabeledLines(r.novelPerspectives))
  {
    SectionLinesInReport(Preamble(roadblock), BreakthroughSections(r), Trailer, 0,
                         "\U{1F50D} Novel Perspectives", LabeledBullets(r.novelPerspectives));
    LabeledBulletsReadBack(r.novelPerspectives);
    assert Split(LabeledBullets(r.novelPerspectives), '\n') == LabeledLines(r.novelPerspectives);
  }
}
