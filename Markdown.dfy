/** The layout shared by every report: a title, `## <header>` sections
    each followed by a blank line, and a closing text; and the line rules
    for list and dict fields, each `chr(10).join(...)` of one line per
    element. */
module Markdown {
  import opened Text

  /** `## <header>`, then the body on the next line. */
  datatype Section = Section(header: string, body: string)

  /** The text a section contributes: its header line, its body and the
      blank line that ends it. */
  function SectionText(s: Section): string
  {
    "## " + s.header + "\n" + s.body + "\n\n"
  }

  /** The sections one after another, in the given order. */
  function Layout(sections: seq<Section>): string
  {
    if |sections| == 0 then "" else SectionText(sections[0]) + Layout(sections[1..])
  }

  /** A whole report: title, sections, closing text. */
  function Report(title: string, sections: seq<Section>, closing: string): string
  {
    title + Layout(sections) + closing
  }

  function Headers(sections: seq<Section>): seq<string>
  {
    seq(|sections|, i requires 0 <= i < |sections| => sections[i].header)
  }

  /** Laying out two runs of sections is laying out each, in order. */
  lemma {:induction false} LayoutAppend(a: seq<Section>, b: seq<Section>)
    ensures Layout(a + b) == Layout(a) + Layout(b)
    decreases |a|
  {
    if |a| > 0 {
      assert (a + b)[1..] == a[1..] + b;
      LayoutAppend(a[1..], b);
    } else {
      assert a + b == b;
    }
  }

  /** Section `k` of a report stands verbatim, header and body, after the
      sections before it and before the sections after it, whatever its
      body is (an empty body still leaves its header line). */
  lemma SectionAt(title: string, sections: seq<Section>, closing: string, k: nat)
    requires k < |sections|
    ensures Report(title, sections, closing)
         == title + Layout(sections[..k])
            + "## " + sections[k].header + "\n" + sections[k].body + "\n\n"
            + Layout(sections[k + 1..]) + closing
  {
    assert sections == sections[..k] + ([sections[k]] + sections[k + 1..]);
    LayoutAppend(sections[..k], [sections[k]] + sections[k + 1..]);
    assert ([sections[k]] + sections[k + 1..])[1..] == sections[k + 1..];
  }

  /** Every section of a report occurs in it: its header line, its body
      and the blank line after it. */
  lemma SectionInReport(title: string, sections: seq<Section>, closing: string, k: nat,
                        header: string, body: string)
    requires k < |sections| && sections[k] == Section(header, body)
    ensures IsInfix(SectionText(Section(header, body)), Report(title, sections, closing))
  {
    SectionAt(title, sections, closing, k);
    var p := SectionText(Section(header, body));
    var before, after := title + Layout(sections[..k]), Layout(sections[k + 1..]) + closing;
    assert Report(title, sections, closing) == before + p + after;
    InfixOf(before, p, after);
  }

  /** A section with an empty body still shows its header line, then a
      blank line. */
  lemma EmptySectionInReport(title: string, sections: seq<Section>, closing: string, k: nat,
                             header: string)
    requires k < |sections| && sections[k] == Section(header, "")
    ensures IsInfix("## " + header + "\n\n\n", Report(title, sections, closing))
  {
    SectionInReport(title, sections, closing, k, header, "");
    assert SectionText(Section(header, "")) == "## " + header + "\n\n\n";
  }

  /** The text holds a `## header` section whose body, cut at line breaks,
      is `lines`. */
  ghost predicate HasSectionLines(text: string, header: string, lines: seq<string>)
  {
    exists body :: IsInfix(SectionText(Section(header, body)), text) && Split(body, '\n') == lines
  }

  /** Reading a report's text, section `k` is found under its header with
      the lines of its body. */
  lemma SectionLinesInReport(title: string, sections: seq<Section>, closing: string, k: nat,
                             header: string, body: string)
    requires k < |sections| && sections[k] == Section(header, body)
    ensures HasSectionLines(Report(title, sections, closing), header, Split(body, '\n'))
  {
    SectionInReport(title, sections, closing, k, header, body);
  }

  /** Every report starts with its title and ends with its closing text. */
  lemma ReportFrame(title: string, sections: seq<Section>, closing: string)
    ensures IsPrefix(title, Report(title, sections, closing))
    ensures IsSuffix(closing, Report(title, sections, closing))
  {
    var r := Report(title, sections, closing);
    assert r == title + (Layout(sections) + closing);
    assert r == (title + Layout(sections)) + closing;
  }

  /** The lines of a list field: `marker + item` for each item. */
  function BulletLines(marker: string, items: seq<string>): seq<string>
  {
    PrefixEach(marker, items)
  }

  /** `chr(10).join(f"{marker}{item}" for item in items)`. */
  function Bullets(marker: string, items: seq<string>): string
  {
    Join("\n", BulletLines(marker, items))
  }

  /** `f"- **{key}**: {value}"`, one `Dict[str, str]` entry. */
  function PairLine(entry: (string, string)): string
  {
    "- **" + entry.0 + "**: " + entry.1
  }

  function PairLines(entries: seq<(string, string)>): seq<string>
  {
    seq(|entries|, i requires 0 <= i < |entries| => PairLine(entries[i]))
  }

  /** `chr(10).join(f"- **{k}**: {v}" for k, v in d.items())`, with the
      dict given as its entries in iteration order. */
  function Pairs(entries: seq<(string, string)>): string
  {
    Join("\n", PairLines(entries))
  }

  /** `f"- {key}: {value:.2f}"`, one `Dict[str, float]` entry; `fmt` stands
      for the `.2f` conversion. */
  function ScoreLine(entry: (string, real), fmt: real -> string): string
  {
    "- " + entry.0 + ": " + fmt(entry.1)
  }

  function ScoreLines(entries: seq<(string, real)>, fmt: real -> string): seq<string>
  {
    seq(|entries|, i requires 0 <= i < |entries| => ScoreLine(entries[i], fmt))
  }

  /** `chr(10).join(f"- {k}: {v:.2f}" for k, v in d.items())`. */
  function Scores(entries: seq<(string, real)>, fmt: real -> string): string
  {
    Join("\n", ScoreLines(entries, fmt))
  }

  /** `', '.join(xs)`, how the reports print the caller's input lists. */
  function InputList(xs: seq<string>): string
  {
    Join(", ", xs)
  }

  /** Empty lists and dicts give an empty body. */
  lemma EmptyBodies(marker: string, fmt: real -> string)
    ensures Bullets(marker, []) == ""
    ensures Pairs([]) == ""
    ensures Scores([], fmt) == ""
    ensures InputList([]) == ""
  {
  }

  /** A list field whose items have no line break reads back, line by
      line, as one `marker + item` line per item, in the list's order. */
  lemma BulletsReadBack(marker: string, items: seq<string>)
    requires |items| >= 1
    requires '\n' !in marker
    requires forall k :: 0 <= k < |items| ==> '\n' !in items[k]
    ensures |Split(Bullets(marker, items), '\n')| == |items|
    ensures forall k :: 0 <= k < |items| ==> Split(Bullets(marker, items), '\n')[k] == marker + items[k]
  {
    var lines := BulletLines(marker, items);
    forall k | 0 <= k < |lines| ensures '\n' !in lines[k] {
      assert lines[k] == marker + items[k];
    }
    JoinedLines('\n', lines);
  }

  /** A `Dict[str, str]` field reads back as one `- **k**: v` line per
      entry, in the entries' order, when no key or value has a line break. */
  lemma PairsReadBack(entries: seq<(string, string)>)
    requires |entries| >= 1
    requires forall k :: 0 <= k < |entries| ==> '\n' !in entries[k].0 && '\n' !in entries[k].1
    ensures |Split(Pairs(entries), '\n')| == |entries|
    ensures forall k :: 0 <= k < |entries| ==>
      Split(Pairs(entries), '\n')[k] == "- **" + entries[k].0 + "**: " + entries[k].1
  {
    var lines := PairLines(entries);
    forall k | 0 <= k < |lines| ensures '\n' !in lines[k] {
      assert lines[k] == "- **" + entries[k].0 + "**: " + entries[k].1;
    }
    JoinedLines('\n', lines);
  }

  /** A `Dict[str, float]` field reads back as one `- k: <fmt(v)>` line per
      entry, in the entries' order, when neither the keys nor the
      formatted numbers have a line break. */
  lemma ScoresReadBack(entries: seq<(string, real)>, fmt: real -> string)
    requires |entries| >= 1
    requires forall k :: 0 <= k < |entries| ==> '\n' !in entries[k].0 && '\n' !in fmt(entries[k].1)
    ensures |Split(Scores(entries, fmt), '\n')| == |entries|
    ensures forall k :: 0 <= k < |entries| ==>
      Split(Scores(entries, fmt), '\n')[k] == "- " + entries[k].0 + ": " + fmt(entries[k].1)
  {
    var lines := ScoreLines(entries, fmt);
    forall k | 0 <= k < |lines| ensures '\n' !in lines[k] {
      assert lines[k] == "- " + entries[k].0 + ": " + fmt(entries[k].1);
    }
    JoinedLines('\n', lines);
  }

  /** An input list without commas in its items reads back at the commas
      as its items, each after the first behind the space of `", "`. */
  lemma InputListReadBack(xs: seq<string>)
    requires |xs| >= 1
    requires forall k :: 0 <= k < |xs| ==> ',' !in xs[k]
    ensures |Split(InputList(xs), ',')| == |xs|
    ensures Split(InputList(xs), ',')[0] == xs[0]
    ensures forall k :: 1 <= k < |xs| ==> Split(InputList(xs), ',')[k] == " " + xs[k]
  {
    assert ", " == [','] + " ";
    SplitJoin(',', " ", xs);
  }
}
