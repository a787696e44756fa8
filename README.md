# Agent report rendering, modelled in Dafny

The repository's agent tools ask a language model for a structured record
(a pydantic `BaseModel` of `str`, `list[str]`, `Dict[str, str]` and
`Dict[str, float]` fields) and turn the record into a fixed-layout Markdown
report, or into the failure text `"<prefix>" + str(e)` when an
`Exception` is raised inside the tool's `try` block. This project models that deterministic half for the
six tools of three agents:

- `knowledge_synthesizer.py`: `synthesize_knowledge_domains`,
  `create_insight_maps`, `generate_strategic_brief`,
  `track_emerging_trends` (module `KnowledgeSynthesizer`);
- `semantic_scholar_innovation_agent.py`: `research_innovation_idea`
  (module `SemanticScholarInnovation`);
- `innovation_breakthrough_agent.py`: `breakthrough_innovation_roadblock`,
  with its `label: description` split (module `InnovationBreakthrough`).

The shared pieces are:

- `Text`: the Python string operations the templates use. `sep.join(xs)`
  is `Join`, `s.split(c)` is `Split`, `s.split(c, 1)` is `SplitOnce`. The
  main result is the round trip `SplitJoin`: a list joined with a
  separator that starts with `c` splits back at `c` into the first item
  and each later item behind the rest of the separator.
- `Markdown`: a report is a title, then `## <header>` sections each
  followed by a blank line, then a closing text (`Report`). It also holds
  the line rules: `- item` or `• item` bullets, `- **k**: v` for
  `Dict[str, str]`, `- k: <fmt(v)>` for `Dict[str, float]`, and `", "` for
  input lists.
- `Schema`: a schema class as an ordered list of named, typed fields
  (`Contract`). `FieldSections` is a reference renderer: it takes a
  record's fields in declaration order and renders each one by the rule
  for its kind. Each tool's own section list, written as the source's
  f-string writes it, is proved equal to its input sections followed by
  this reference (the two innovation agents have no input sections). That
  proof shows the field sections follow the class's declaration order.
- `AgentRun`: a run's outcome, either the validated record (`Returned`)
  or the message of the exception (`Raised`).

Each schema is a datatype with one field per class field, in declaration
order. Each `Dict` field is a sequence of pairs, so Python's insertion
order is kept. A Python `float` is a `real`. The `:.2f` conversion is the
parameter `fmt: real -> string` of the renderers that print numbers, so
nothing is assumed about it.

Facts about the code that shape the model:

- A `Dict[str, float]` line is `- key: value`, with the `- ` prefix. The
  value is printed with `:.2f`, which rounds; the number's text is left to
  the parameter `fmt`.
- A failure is the plain string `"<tool-specific prefix>" + str(e)`, not a
  typed value.
- Provider lifecycles, schema-validation retries and deadlines live inside
  the `pydantic_ai` and `fastmcp` libraries, not in the tools' code.
- Every template ends with a line break after its last line, so the
  closing texts (`Footer`, `Trailer`) end with `\n`.

## Model

| member | source | states |
|---|---|---|
| `Text.Join` | knowledge_synthesizer.py:281-287 | `sep.join(xs)`: the items with `sep` between neighbours; contract: `SplitJoin`, `JoinedLines` |
| `Text.FindChar` | innovation_breakthrough_agent.py:204 | the first-occurrence search behind `Split` and `SplitLabel` (the code calls no `.find`): no position exactly when `c` is not in `s`; otherwise a position holding `c` with no `c` before it |
| `Text.Split` | innovation_breakthrough_agent.py:204 | `s.split(c)`: at least one piece, no piece contains `c`, and joining the pieces with `c` gives back `s` |
| `Text.SplitOnce` | innovation_breakthrough_agent.py:204 | `s.split(c, 1)`: `[s]` when there is no `c`; otherwise two pieces, the first free of `c`, that give back `s` around one `c` |
| `Text.SplitJoin` | knowledge_synthesizer.py:287 | joining with `[c] + t` and splitting at `c` gives back the first item and each later item behind `t`, when neither the items nor `t` contain `c` |
| `Text.JoinedLines` | knowledge_synthesizer.py:287 | `chr(10).join` of line-free items splits back at line breaks into exactly the items, same count, same order |
| `Markdown.Bullets` | knowledge_synthesizer.py:287 | `chr(10).join(f"{marker}{item}" for item in items)`, as in every list section (also semantic_scholar_innovation_agent.py:280); `KnowledgeSynthesizer.Dashes` is it with `- ` and `SemanticScholarInnovation.Dots` with `• `; contract: `BulletsReadBack`, `EmptyBodies` |
| `Markdown.Pairs` | knowledge_synthesizer.py:524 | `chr(10).join(f"- **{k}**: {v}" …)` over a `Dict[str, str]`, as also at line 641; contract: `PairsReadBack`, `EmptyBodies` |
| `Markdown.Scores` | knowledge_synthesizer.py:305 | `chr(10).join(f"- {k}: {v:.2f}" …)` over a `Dict[str, float]`, as also at lines 401, 419 and 659; contract: `ScoresReadBack`, `EmptyBodies` |
| `Markdown.InputList` | knowledge_synthesizer.py:281 | `', '.join(xs)` for the caller's input lists, as also at lines 389, 509, 512 and 632; contract: `InputListReadBack`, `EmptyBodies` |
| `Markdown.Report` | knowledge_synthesizer.py:275-315 | the skeleton all six templates share: the title, then per section `## header`, the body and a blank line (`SectionText`, laid out in order by `Layout`), then the closing text; contract: `LayoutAppend`, `SectionAt`, `SectionInReport`, `ReportFrame` |
| `Markdown.LayoutAppend` | knowledge_synthesizer.py:277-311 | laying out two runs of sections one after the other gives the two layouts in order, so the template's sections appear in the order written |
| `Markdown.SectionAt` | knowledge_synthesizer.py:275-315 | section `k` appears in the report verbatim as `## header`, its body and a blank line, after the sections before it and before the sections after it; an empty body still leaves its header line |
| `Markdown.SectionInReport` | knowledge_synthesizer.py:283-302 | every section of a report occurs in the report text, header line, body and blank line |
| `Markdown.EmptySectionInReport` | knowledge_synthesizer.py:298-299 | a section whose list is empty still shows `## header` followed by a blank line |
| `Markdown.SectionLinesInReport` | knowledge_synthesizer.py:275-315 | reading a report's text, each section is found under its `## header` with its body's lines |
| `Markdown.ReportFrame` | knowledge_synthesizer.py:313-315 | every report starts with its title and ends with its closing text |
| `Markdown.EmptyBodies` | knowledge_synthesizer.py:286-287 | an empty list, dict or input list renders as an empty body |
| `Markdown.BulletsReadBack` | knowledge_synthesizer.py:286-311 | a list field renders one `marker + item` line per item, in list order, with one line per item |
| `Markdown.PairsReadBack` | knowledge_synthesizer.py:524 | a `Dict[str, str]` field renders one `- **k**: v` line per entry, in the data's iteration order |
| `Markdown.ScoresReadBack` | knowledge_synthesizer.py:305 | a `Dict[str, float]` field renders one `- k: <fmt(v)>` line per entry, in the data's iteration order |
| `Markdown.InputListReadBack` | knowledge_synthesizer.py:281 | an input list renders as its `", "`-join, and splits back at the commas into the first item and each later item behind one space |
| `KnowledgeSynthesizer.SynthesisFields` | knowledge_synthesizer.py:30-41 | the record's fields conform to `KnowledgeSynthesis` (names and kinds, in declaration order) |
| `KnowledgeSynthesizer.SynthesisSections` | knowledge_synthesizer.py:277-311 | the template's sections, headers and bodies; contract: `SynthesisFollowsDeclaration`, `SynthesisScalarsVerbatim`, `SynthesisConnectionsReadBack` |
| `KnowledgeSynthesizer.SynthesizeKnowledgeDomains` | knowledge_synthesizer.py:269-320 | on an exception the text is exactly `"Knowledge synthesis failed: " + str(e)`; the text starts with that prefix only then; a report starts with its title, ends with the footer and is exactly the title, the template's sections and the footer |
| `KnowledgeSynthesizer.SynthesisFollowsDeclaration` | knowledge_synthesizer.py:275-315 | after the two input sections, the sections are the fields of `KnowledgeSynthesis` in declaration order, each rendered by its kind's rule; the header list does not depend on the data |
| `KnowledgeSynthesizer.SynthesisScalarsVerbatim` | knowledge_synthesizer.py:283-302 | the synthesis summary and the methodology occur verbatim under their headers, and an empty knowledge-gaps list still leaves its header in the report |
| `KnowledgeSynthesizer.SynthesisConnectionsReadBack` | knowledge_synthesizer.py:286-287 | the tool's text holds a `Domain Connections` section with one `- connection` line per connection, in the record's order |
| `KnowledgeSynthesizer.InsightMapFields` | knowledge_synthesizer.py:43-54 | the record's fields conform to `InsightMap` in declaration order |
| `KnowledgeSynthesizer.InsightMapSections` | knowledge_synthesizer.py:388-422 | the template's sections; contract: `InsightMapFollowsDeclaration`, `InsightMapStrengthsReadBack` |
| `KnowledgeSynthesizer.CreateInsightMaps` | knowledge_synthesizer.py:380-431 | failure text is exactly `"Insight mapping failed: " + str(e)` and only failures start with that prefix; a map starts with its title, ends with the footer and is exactly the title, the template's sections and the footer |
| `KnowledgeSynthesizer.InsightMapFollowsDeclaration` | knowledge_synthesizer.py:386-426 | after the two input sections, the sections are the fields of `InsightMap` in declaration order, each rendered by its kind's rule |
| `KnowledgeSynthesizer.InsightMapStrengthsReadBack` | knowledge_synthesizer.py:400-401 | the tool's text holds a `Connection Strengths` section with one `- key: <fmt(value)>` line per entry, in iteration order |
| `KnowledgeSynthesizer.StrategicBriefFields` | knowledge_synthesizer.py:56-67 | the record's fields conform to `StrategicBrief` in declaration order |
| `KnowledgeSynthesizer.StrategicBriefSections` | knowledge_synthesizer.py:505-542 | the template's sections; contract: `StrategicBriefFollowsDeclaration`, `StrategicBriefImpactsReadBack` |
| `KnowledgeSynthesizer.GenerateStrategicBrief` | knowledge_synthesizer.py:497-551 | failure text is exactly `"Strategic briefing failed: " + str(e)` and only failures start with that prefix; a brief starts with its title, ends with the footer and is exactly the title, the template's sections and the footer |
| `KnowledgeSynthesizer.StrategicBriefFollowsDeclaration` | knowledge_synthesizer.py:503-546 | after the three input sections, the sections are the fields of `StrategicBrief` in declaration order, each rendered by its kind's rule |
| `KnowledgeSynthesizer.StrategicBriefImpactsReadBack` | knowledge_synthesizer.py:523-524 | the tool's text holds a `Stakeholder Impacts` section with one `- **stakeholder**: impact` line per entry, in iteration order |
| `KnowledgeSynthesizer.TrendAnalysisFields` | knowledge_synthesizer.py:69-80 | the record's fields conform to `TrendAnalysis` in declaration order |
| `KnowledgeSynthesizer.TrendAnalysisSections` | knowledge_synthesizer.py:625-662 | the template's sections; contract: `TrendAnalysisFollowsDeclaration`, `TrendPatternsReadBack` |
| `KnowledgeSynthesizer.TrackEmergingTrends` | knowledge_synthesizer.py:617-671 | failure text is exactly `"Trend analysis failed: " + str(e)` and only failures start with that prefix; a trend report starts with its title, ends with the footer and is exactly the title, the template's sections and the footer |
| `KnowledgeSynthesizer.TrendAnalysisFollowsDeclaration` | knowledge_synthesizer.py:623-666 | after the three input sections, the sections are the fields of `TrendAnalysis` in declaration order, each rendered by its kind's rule |
| `KnowledgeSynthesizer.TrendPatternsReadBack` | knowledge_synthesizer.py:637-638 | the tool's text holds an `Emerging Patterns` section with one `- pattern` line per pattern, in the record's order |
| `SemanticScholarInnovation.ResponseFields` | semantic_scholar_innovation_agent.py:28-41 | the record's twelve fields conform to `SemanticScholarInnovationResponse` in declaration order |
| `SemanticScholarInnovation.Preamble` | semantic_scholar_innovation_agent.py:270-277 | the text above the first field section; contract: `PreambleText`, `IdeaVerbatim` |
| `SemanticScholarInnovation.ResearchSections` | semantic_scholar_innovation_agent.py:279-313 | the twelve `•` sections; contract: `ResearchFollowsDeclaration`, `FindingsReadBack` |
| `SemanticScholarInnovation.ResearchInnovationIdea` | semantic_scholar_innovation_agent.py:264-340 | failure text is exactly `"Semantic Scholar innovation research failed: " + str(e)` and only failures start with that prefix; a report starts with the idea's preamble and ends with the constant trailer, whatever the data, and is exactly the preamble, the twelve sections and the trailer |
| `SemanticScholarInnovation.PreambleText` | semantic_scholar_innovation_agent.py:270-277 | the preamble is the title, `## Innovation Idea Analysis`, the idea between `**` marks, the italic note and a rule |
| `SemanticScholarInnovation.IdeaVerbatim` | semantic_scholar_innovation_agent.py:272-273 | the idea stands verbatim, followed by `**`, right after the `## Innovation Idea Analysis\n**` line |
| `SemanticScholarInnovation.ResearchFollowsDeclaration` | semantic_scholar_innovation_agent.py:279-313 | the twelve sections are the response's fields in declaration order, each a `•` list, under data-independent headers |
| `SemanticScholarInnovation.FindingsReadBack` | semantic_scholar_innovation_agent.py:279-280 | the tool's text holds the `Cutting-Edge Research Findings (2025)` section with one `• finding` line per finding, in the response's order |
| `InnovationBreakthrough.ResponseFields` | innovation_breakthrough_agent.py:28-39 | the record's ten fields conform to `InnovationBreakthroughResponse` in declaration order |
| `InnovationBreakthrough.SplitLabel` | innovation_breakthrough_agent.py:204 | the label never contains a colon; with a colon, label + `:` + description is the item; without one, label and description are both the item; an item starting with `:` has an empty label |
| `InnovationBreakthrough.SplitLabelUnique` | innovation_breakthrough_agent.py:204 | any split into a colon-free label, a colon and a description is the one `SplitLabel` makes, so the label is the text before the first colon |
| `InnovationBreakthrough.LabeledLine` | innovation_breakthrough_agent.py:204 | `f"• **{x.split(':')[0]}**: {…}"` for one item; contract: `LabeledLineExamples`, with `SplitLabel` for its parts |
| `InnovationBreakthrough.LabeledBullets` | innovation_breakthrough_agent.py:203-204 | `chr(10).join` of one labeled line per item; contract: `LabeledBulletsReadBack` |
| `InnovationBreakthrough.LabeledLineExamples` | innovation_breakthrough_agent.py:204 | a colon-free item `x` prints as `• **x**: x`; `"A: b"` prints as `• **A**:  b`, keeping the space after the colon; `":x"` has an empty label |
| `InnovationBreakthrough.LabeledBulletsReadBack` | innovation_breakthrough_agent.py:203-231 | a labeled list renders one labeled line per item, in list order |
| `InnovationBreakthrough.Preamble` | innovation_breakthrough_agent.py:196-201 | the title, the roadblock under its header and a rule; contract: `RoadblockVerbatim` |
| `InnovationBreakthrough.BreakthroughSections` | innovation_breakthrough_agent.py:203-231 | the ten labeled sections; contract: `BreakthroughFollowsDeclaration`, `PerspectivesReadBack` |
| `InnovationBreakthrough.BreakthroughInnovationRoadblock` | innovation_breakthrough_agent.py:189-258 | failure text is exactly `"Innovation breakthrough analysis failed: " + str(e)` and only failures start with that prefix; a report starts with the roadblock's preamble, ends with the constant trailer and is exactly the preamble, the ten sections and the trailer |
| `InnovationBreakthrough.RoadblockVerbatim` | innovation_breakthrough_agent.py:196-201 | the roadblock text stands verbatim under `## Roadblock Challenge`, followed by a rule |
| `InnovationBreakthrough.BreakthroughFollowsDeclaration` | innovation_breakthrough_agent.py:203-231 | the ten sections are the response's fields in declaration order, each a labeled list, under data-independent headers |
| `InnovationBreakthrough.PerspectivesReadBack` | innovation_breakthrough_agent.py:203-204 | the tool's text holds the `Novel Perspectives` section with one labeled line per perspective, in the response's order |

## Left out

- Agent construction and `agent.run(...)`: these are calls into `pydantic_ai` and a remote model backend. Schema validation and any retry live in that library, so a run enters the model only as its outcome (`AgentRun.RunOutcome`).
- The `MCPServerStdio` subprocesses and the `async with agent.run_mcp_servers()` scope: this is subprocess I/O and async lifetime handled by the libraries. For the same reason provider lifecycles, retries and deadlines inside `pydantic_ai` and `fastmcp` are not modelled.
- The `:.2f` float conversion: floating-point formatting is the opaque parameter `fmt`.
- The prompt and system-prompt texts: they are fixed domain wording with plain substitution. Parameters that only feed a prompt (`depth`, `connections`) are not parameters of the model.
- The constant `@mcp.resource` texts: they contain no logic.
- Process setup (`load_dotenv`, `logfire`, environment reads, `FastMCP`, `mcp.run()`) and the provider keys in launch arguments: these are configuration, telemetry and bootstrap.
- Python dicts have distinct keys. The entry sequences do not enforce this, because rendering does not depend on it.
- The read-back lemmas are stated for items without line breaks, or without commas for input lists. An item that contains a line break spreads over several lines of the report, and the template does nothing about it.
- Exceptions raised while a report is being built are not modelled. For a schema-valid record the template cannot raise.
- Python `float` fields also accept `nan`, `inf` and negative zero, which `:.2f` prints as `nan`, `inf` and `-0.00`. A `real` cannot hold the first two and does not tell `-0.0` from `0.0`, so `fmt` must print both zeros alike; records carrying such scores are not modelled.
- Default arguments are bound by the caller: `CreateInsightMaps(topics, "network", …)` is the call that leaves out `visualization_type`. The default `depth="comprehensive"` only feeds the prompt, and the prompt is not modelled.
- `RunOutcome.Raised` stands for `Exception`s only (the tools catch `except Exception as e`). A `BaseException` such as `asyncio.CancelledError` or `KeyboardInterrupt` leaves the tool without returning text and is not modelled.
