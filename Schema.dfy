/** The declared shape of an agent's structured output: an ordered list of
    named fields, each a `str`, a `list[str]`, a `Dict[str, str]` or a
    `Dict[str, float]`, and the kind-by-kind rule that turns a field into
    a report section. The report functions of each tool are stated
    against this rule. */
module Schema {
  import opened Markdown

  datatype Kind = StrKind | StrListKind | StrDictKind | FloatDictKind

  /** A field value; a dict is kept as its entries in iteration order. */
  datatype Value =
    | Str(text: string)
    | StrList(items: seq<string>)
    | StrDict(entries: seq<(string, string)>)
    | FloatDict(scores: seq<(string, real)>)

  datatype Field = Field(name: string, value: Value)

  /** A schema class: its field names and kinds, in declaration order. */
  type Contract = seq<(string, Kind)>

  function KindOf(v: Value): Kind
  {
    match v
    case Str(_) => StrKind
    case StrList(_) => StrListKind
    case StrDict(_) => StrDictKind
    case FloatDict(_) => FloatDictKind
  }

  /** The fields are exactly the contract's, same names, same kinds, same
      order. */
  predicate Conforms(fields: seq<Field>, contract: Contract)
  {
    && |fields| == |contract|
    && forall k :: 0 <= k < |fields| ==>
         fields[k].name == contract[k].0 && KindOf(fields[k].value) == contract[k].1
  }

  /** A scalar is copied verbatim, a list goes through the tool's bullet
      rule, a `Dict[str, str]` gives `- **k**: v` lines and a
      `Dict[str, float]` gives `- k: <fmt(v)>` lines. */
  function RenderValue(v: Value, listRule: seq<string> -> string, fmt: real -> string): string
  {
    match v
    case Str(s) => s
    case StrList(items) => listRule(items)
    case StrDict(entries) => Pairs(entries)
    case FloatDict(scores) => Scores(scores, fmt)
  }

  /** One section per field, in field order, under the matching header. */
  function FieldSections(fields: seq<Field>, headers: seq<string>,
                         listRule: seq<string> -> string, fmt: real -> string): seq<Section>
    requires |headers| == |fields|
  {
    seq(|fields|, i requires 0 <= i < |fields| =>
      Section(headers[i], RenderValue(fields[i].value, listRule, fmt)))
  }
}
