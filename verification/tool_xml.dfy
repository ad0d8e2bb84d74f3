/** The XML element builders of the tool configuration: `ToolParam`,
    `ToolOption`, `ToolSelect`, `ToolWhen`, `ToolWhenNested` and
    `ToolConditional`. Each element is an immutable value; its `get_xml`
    method becomes a function rendering it to text. Values are interpolated
    raw, exactly as the generator does: nothing is escaped.
 */
module ToolXml {
  import opened Text

  /** The type a param falls back to. */
  const DefaultType := "text"

  /** The only types a param may carry. */
  const AllowedTypes := ["int", "text", "float", "select"]

  /** The tags `ToolConditional` wraps its block in, trailing space included. */
  const ConditionalOpen := "<conditional> \n"
  const ConditionalClose := "</conditional> \n"

  /** `<option value="value">name</option>` */
  datatype ToolOption = ToolOption(value: string, name: string)

  /** A param with its stored type, after `__init__` has coerced it. */
  datatype ToolParam = ToolParam(name: string, caption: string, dataType: string, help: Option<string>)

  /** A select param listing its options. */
  datatype ToolSelect = ToolSelect(name: string, caption: string, options: seq<ToolOption>)

  /** An entry of a `<when>` body; the generator mixes params and selects in one list. */
  datatype WhenParam = Plain(param: ToolParam) | Selector(select: ToolSelect)

  /** A `<when>` branch holding params. */
  datatype ToolWhen = ToolWhen(value: string, params: seq<WhenParam>)

  /** A `<when>` branch holding already rendered text inside a conditional. */
  datatype ToolWhenNested = ToolWhenNested(value: string, xmlParams: string)

  /** A block of text between the conditional tags; the name is never rendered. */
  datatype ToolConditional = ToolConditional(conditionalName: string, xmlBlock: string)

  /** `ToolParam._is_type_valid`: membership in the allowed list. */
  predicate IsTypeValid(t: string) {
    t in AllowedTypes
  }

  /** `ToolParam.__init__`: a missing, empty or unlisted type is replaced by the default. */
  function NewToolParam(name: string, caption: string, dataType: Option<string>, help: Option<string>): (p: ToolParam)
    ensures p.name == name && p.caption == caption && p.help == help
    ensures p.dataType in AllowedTypes
    ensures p.dataType == DefaultType || (dataType.Some? && p.dataType == dataType.value)
    ensures Truthy(dataType) && dataType.value in AllowedTypes ==> p.dataType == dataType.value
    ensures !(Truthy(dataType) && dataType.value in AllowedTypes) ==> p.dataType == DefaultType
  {
    if Truthy(dataType) then
      var stored := if IsTypeValid(dataType.value) then dataType.value else DefaultType;
      ToolParam(name, caption, stored, help)
    else
      ToolParam(name, caption, DefaultType, help)
  }

  /** The opening of a param element, up to and including the label attribute. */
  function ParamOpen(name: string, dataType: string, caption: string): string {
    "<param name=\"" + name + "\" type=\"" + dataType + "\" label=\"" + caption + "\""
  }

  /** The help attribute, present only when there is help text. */
  function HelpAttr(help: Option<string>): (attr: string)
    ensures attr != "" <==> Truthy(help)
  {
    if Truthy(help) then " help=\"" + help.value + "\"" else ""
  }

  /** `ToolParam.get_xml`, with its four branches. */
  function ParamXml(p: ToolParam): string {
    if p.dataType != "" && Truthy(p.help) then
      "<param name=\"" + p.name + "\" type=\"" + p.dataType + "\" label=\"" + p.caption + "\" help=\"" + p.help.value + "\" />"
    else if p.dataType != "" then
      "<param name=\"" + p.name + "\" type=\"" + p.dataType + "\" label=\"" + p.caption + "\" />"
    else if Truthy(p.help) then
      "<param name=\"" + p.name + "\" type=\"" + DefaultType + "\" label=\"" + p.caption + "\" help=\"" + p.help.value + "\" />"
    else
      "<param name=\"" + p.name + "\" type=\"" + DefaultType + "\" label=\"" + p.caption + "\" />"
  }

  /** The name, label and help of a param are free of line breaks. */
  predicate ParamOneLine(p: ToolParam) {
    OneLine(p.name) && OneLine(p.caption) && OneLineOpt(p.help)
  }

  /** No allowed type holds a line break. */
  lemma AllowedTypesOneLine()
    ensures forall t :: t in AllowedTypes ==> OneLine(t)
  {
  }

  /** A param built by `NewToolParam` always renders its stored type, and carries a help
      attribute exactly when its help text is non-empty: the two branches of `get_xml`
      that fall back to the default type are never taken. */
  lemma ParamXmlShape(p: ToolParam)
    requires p.dataType in AllowedTypes
    ensures ParamXml(p) == ParamOpen(p.name, p.dataType, p.caption) + HelpAttr(p.help) + " />"
    ensures ParamOneLine(p) ==> OneLine(ParamXml(p))
  {
    AllowedTypesOneLine();
    var open := ParamOpen(p.name, p.dataType, p.caption);
    if Truthy(p.help) {
      assert ParamXml(p) == open + (" help=\"" + p.help.value + "\"") + " />";
    } else {
      assert ParamXml(p) == open + "" + " />";
    }
  }

  /** `ToolOption.get_xml`. */
  function OptionXml(o: ToolOption): string {
    "<option value=\"" + o.value + "\">" + o.name + "</option>"
  }

  /** Both fields of an option are free of line breaks. */
  predicate OptionOneLine(o: ToolOption) {
    OneLine(o.value) && OneLine(o.name)
  }

  /** The first line of a select. */
  function SelectHeader(name: string, caption: string): string {
    "<param name=\"" + name + "\" type=\"select\" label=\"" + caption + "\">"
  }

  /** The body of a select: each option on its own tab-indented line. */
  function OptionsXml(options: seq<ToolOption>): string {
    if |options| == 0 then ""
    else "\t" + OptionXml(options[0]) + "\n" + OptionsXml(options[1..])
  }

  /** `ToolSelect.get_xml`. */
  function SelectXml(s: ToolSelect): string {
    SelectHeader(s.name, s.caption) + "\n" + OptionsXml(s.options) + "</param>" + "\n"
  }

  /** The header, fields and options of a select are free of line breaks. */
  predicate SelectOneLine(s: ToolSelect) {
    && OneLine(s.name)
    && OneLine(s.caption)
    && forall i :: 0 <= i < |s.options| ==> OptionOneLine(s.options[i])
  }

  /** The option lines a select should have, one per option, in order. */
  function OptionLines(options: seq<ToolOption>): (lines: seq<string>)
    ensures |lines| == |options|
    ensures forall i :: 0 <= i < |options| ==> lines[i] == "\t" + OptionXml(options[i])
  {
    if |options| == 0 then [] else ["\t" + OptionXml(options[0])] + OptionLines(options[1..])
  }

  lemma {:induction false} OptionsXmlLines(options: seq<ToolOption>, tail: string)
    requires forall i :: 0 <= i < |options| ==> OptionOneLine(options[i])
    ensures Lines(OptionsXml(options) + tail) == OptionLines(options) + Lines(tail)
    decreases |options|
  {
    if |options| == 0 {
      assert OptionsXml(options) + tail == tail;
    } else {
      var line := "\t" + OptionXml(options[0]);
      OptionLineOneLine(options[0]);
      OptionsXmlLines(options[1..], tail);
      OptionsXmlStep(options, tail);
      LinesAfterLine(line, OptionsXml(options[1..]) + tail);
      assert OptionLines(options) == [line] + OptionLines(options[1..]);
      LinesAssociative([line], OptionLines(options[1..]), Lines(tail));
    }
  }

  /** An option line holds no break when the option's fields hold none. */
  lemma OptionLineOneLine(o: ToolOption)
    requires OptionOneLine(o)
    ensures OneLine("\t" + OptionXml(o))
  {
  }

  /** The options of a select split after the first option's line. */
  lemma OptionsXmlStep(options: seq<ToolOption>, tail: string)
    requires |options| > 0
    ensures OptionsXml(options) + tail == "\t" + OptionXml(options[0]) + "\n" + (OptionsXml(options[1..]) + tail)
  {
    assert OptionsXml(options) == "\t" + OptionXml(options[0]) + "\n" + OptionsXml(options[1..]);
    AppendAssociative("\t" + OptionXml(options[0]) + "\n", OptionsXml(options[1..]), tail);
  }

  /** The option lines of a concatenation are the option lines of each part. */
  lemma OptionLinesAppend(xs: seq<ToolOption>, ys: seq<ToolOption>)
    ensures OptionLines(xs + ys) == OptionLines(xs) + OptionLines(ys)
  {
    assert forall i :: 0 <= i < |xs + ys| ==> OptionLines(xs + ys)[i] == (OptionLines(xs) + OptionLines(ys))[i];
  }

  /** A select, placed after `indent` on its first line, is its header line, then
      exactly one tab-indented option line per option in input order, then the
      closing tag, then the end of the text. */
  lemma SelectLines(indent: string, s: ToolSelect)
    requires OneLine(indent) && SelectOneLine(s)
    ensures Lines(indent + SelectXml(s)) == [indent + SelectHeader(s.name, s.caption)] + OptionLines(s.options) + ["</param>", ""]
    ensures |Lines(indent + SelectXml(s))| == |s.options| + 3
  {
    var head := indent + SelectHeader(s.name, s.caption);
    var body := OptionsXml(s.options);
    SelectHeaderOneLine(s.name, s.caption);
    OneLineAppend(indent, SelectHeader(s.name, s.caption));
    SelectXmlRegroup(indent, s);
    LinesAfterLine(head, body + ("</param>" + "\n"));
    OptionsXmlLines(s.options, "</param>" + "\n");
    LastLine("</param>");
  }

  /** A select followed by more text: its header line, one option line per option in
      input order, the closing tag, and then the lines of what follows, the select's last
      break joining nothing onto them. */
  lemma SelectLinesThen(s: ToolSelect, tail: string)
    requires SelectOneLine(s)
    ensures Lines(SelectXml(s) + tail) ==
      [SelectHeader(s.name, s.caption)] + OptionLines(s.options) + ["</param>"] + Lines(tail)
  {
    var head := SelectHeader(s.name, s.caption);
    var rest := "</param>" + "\n" + tail;
    SelectHeaderOneLine(s.name, s.caption);
    SelectXmlThenRegroup(s, tail);
    LinesAfterLine(head, OptionsXml(s.options) + rest);
    OptionsXmlLines(s.options, rest);
    LinesAfterLine("</param>", tail);
    LinesAssociative4([head], OptionLines(s.options), ["</param>"], Lines(tail));
  }

  /** A select and what follows it, split at the header's break. */
  lemma SelectXmlThenRegroup(s: ToolSelect, tail: string)
    ensures SelectXml(s) + tail ==
      SelectHeader(s.name, s.caption) + "\n" + (OptionsXml(s.options) + ("</param>" + "\n" + tail))
  {
  }

  /** The header of a select holds no break when its name and label hold none. */
  lemma SelectHeaderOneLine(name: string, caption: string)
    requires OneLine(name) && OneLine(caption)
    ensures OneLine(SelectHeader(name, caption))
  {
  }

  /** A select after `indent` is its first line, a break, the options and the closing tag. */
  lemma SelectXmlRegroup(indent: string, s: ToolSelect)
    ensures indent + SelectXml(s) ==
      indent + SelectHeader(s.name, s.caption) + "\n" + (OptionsXml(s.options) + ("</param>" + "\n"))
  {
  }

  /** A select opens with its header line and closes with the closing tag and a break. */
  lemma SelectFraming(s: ToolSelect)
    ensures SelectHeader(s.name, s.caption) + "\n" <= SelectXml(s)
    ensures |SelectXml(s)| >= |"</param>\n"|
    ensures SelectXml(s)[|SelectXml(s)| - |"</param>\n"|..] == "</param>\n"
  {
    var head := SelectHeader(s.name, s.caption) + "\n";
    var rest := OptionsXml(s.options) + "</param>" + "\n";
    assert SelectXml(s) == head + rest;
    assert SelectXml(s)[..|head|] == head;
  }

  /** `get_xml` of whichever element a `<when>` entry holds. */
  function WhenParamXml(p: WhenParam): string {
    match p
    case Plain(param) => ParamXml(param)
    case Selector(select) => SelectXml(select)
  }

  /** The opening tag of a branch. */
  function WhenOpen(value: string): string {
    "<when value=\"" + value + "\">"
  }

  /** The body of a `<when>`: each entry tab-prefixed and followed by a break. */
  function WhenParamsXml(params: seq<WhenParam>): string {
    if |params| == 0 then ""
    else "\t" + WhenParamXml(params[0]) + "\n" + WhenParamsXml(params[1..])
  }

  /** `ToolWhen.get_xml`. */
  function WhenXml(w: ToolWhen): string {
    WhenOpen(w.value) + "\n" + WhenParamsXml(w.params) + "</when>" + "\n"
  }

  /** The lines each entry contributes, in order, once tab-prefixed. */
  function WhenParamsLines(params: seq<WhenParam>): seq<string> {
    if |params| == 0 then [] else Lines("\t" + WhenParamXml(params[0])) + WhenParamsLines(params[1..])
  }

  lemma {:induction false} WhenParamsLinesAppend(xs: seq<WhenParam>, ys: seq<WhenParam>)
    ensures WhenParamsLines(xs + ys) == WhenParamsLines(xs) + WhenParamsLines(ys)
    decreases |xs|
  {
    if |xs| == 0 {
      assert xs + ys == ys;
    } else {
      assert (xs + ys)[0] == xs[0];
      assert (xs + ys)[1..] == xs[1..] + ys;
      WhenParamsLinesAppend(xs[1..], ys);
    }
  }

  lemma WhenParamsLinesOne(p: WhenParam)
    ensures WhenParamsLines([p]) == Lines("\t" + WhenParamXml(p))
  {
    assert [p][1..] == [];
  }

  lemma {:induction false} WhenParamsXmlLines(params: seq<WhenParam>, tail: string)
    ensures Lines(WhenParamsXml(params) + tail) == WhenParamsLines(params) + Lines(tail)
    decreases |params|
  {
    if |params| == 0 {
      assert WhenParamsXml(params) + tail == tail;
    } else {
      var entry := "\t" + WhenParamXml(params[0]);
      assert WhenParamsXml(params) + tail == entry + "\n" + (WhenParamsXml(params[1..]) + tail);
      LinesAround(entry, WhenParamsXml(params[1..]) + tail);
      WhenParamsXmlLines(params[1..], tail);
      LinesAssociative(Lines(entry), WhenParamsLines(params[1..]), Lines(tail));
    }
  }

  /** A `<when>` is its opening tag line, then the lines of each entry tab-prefixed and
      in order, then the closing tag, then the end of the text. */
  lemma WhenLines(w: ToolWhen)
    requires OneLine(w.value)
    ensures Lines(WhenXml(w)) == [WhenOpen(w.value)] + WhenParamsLines(w.params) + ["</when>", ""]
  {
    WhenOpenOneLine(w.value);
    WhenXmlRegroup(w);
    LinesAfterLine(WhenOpen(w.value), WhenParamsXml(w.params) + ("</when>" + "\n"));
    WhenParamsXmlLines(w.params, "</when>" + "\n");
    LastLine("</when>");
  }

  /** The opening tag of a branch holds no break when its value holds none. */
  lemma WhenOpenOneLine(value: string)
    requires OneLine(value)
    ensures OneLine(WhenOpen(value))
  {
  }

  /** A `<when>` is its first line, a break, the entries and the closing tag. */
  lemma WhenXmlRegroup(w: ToolWhen)
    ensures WhenXml(w) == WhenOpen(w.value) + "\n" + (WhenParamsXml(w.params) + ("</when>" + "\n"))
  {
  }

  /** An entry holding a one-line param contributes exactly one tab-indented line. */
  lemma PlainParamLine(p: ToolParam)
    requires p.dataType in AllowedTypes && ParamOneLine(p)
    ensures Lines("\t" + WhenParamXml(Plain(p))) == ["\t" + ParamXml(p)]
  {
    ParamXmlShape(p);
    LinesOfOneLine("\t" + ParamXml(p));
  }

  /** The line of each param entry, tab-indented, in order. */
  function PlainParamLines(params: seq<WhenParam>): (lines: seq<string>)
    requires forall i :: 0 <= i < |params| ==> params[i].Plain?
    ensures |lines| == |params|
  {
    if |params| == 0 then [] else ["\t" + ParamXml(params[0].param)] + PlainParamLines(params[1..])
  }

  /** Entries that are all one-line params contribute one tab-indented line each, in order. */
  lemma {:induction false} PlainParamsLines(params: seq<WhenParam>)
    requires forall i :: 0 <= i < |params| ==>
      params[i].Plain? && params[i].param.dataType in AllowedTypes && ParamOneLine(params[i].param)
    ensures WhenParamsLines(params) == PlainParamLines(params)
    decreases |params|
  {
    if |params| > 0 {
      PlainParamLine(params[0].param);
      PlainParamsLines(params[1..]);
    }
  }

  /** An entry holding a select contributes the select's lines, its header tab-indented. */
  lemma SelectorParamLines(s: ToolSelect)
    requires SelectOneLine(s)
    ensures Lines("\t" + WhenParamXml(Selector(s))) == ["\t" + SelectHeader(s.name, s.caption)] + OptionLines(s.options) + ["</param>", ""]
  {
    SelectLines("\t", s);
  }

  /** `ToolWhenNested.get_xml`. */
  function WhenNestedXml(n: ToolWhenNested): string {
    WhenOpen(n.value) + "\n" + ConditionalOpen + n.xmlParams + "\n" + ConditionalClose + "</when>" + "\n"
  }

  /** A nested `<when>` is its opening tag line, the conditional opening line, the lines of
      its content, then the conditional closing line, the closing tag and the end of the text. */
  lemma WhenNestedLines(n: ToolWhenNested)
    requires OneLine(n.value)
    ensures Lines(WhenNestedXml(n)) ==
      [WhenOpen(n.value), "<conditional> "] + Lines(n.xmlParams) + ["</conditional> ", "</when>", ""]
  {
    var open := WhenOpen(n.value);
    var close := "</conditional> " + "\n" + ("</when>" + "\n");
    WhenOpenOneLine(n.value);
    WhenNestedXmlRegroup(n);
    LinesAfterLine(open, "<conditional> " + "\n" + (n.xmlParams + "\n" + close));
    LinesAfterLine("<conditional> ", n.xmlParams + "\n" + close);
    LinesAround(n.xmlParams, close);
    LinesAfterLine("</conditional> ", "</when>" + "\n");
    LastLine("</when>");
    FrameLines(open, "<conditional> ", Lines(n.xmlParams), ["</conditional> "] + ["</when>", ""]);
  }

  /** A nested `<when>` split at its breaks. */
  lemma WhenNestedXmlRegroup(n: ToolWhenNested)
    ensures WhenNestedXml(n) == WhenOpen(n.value) + "\n" + ("<conditional> " + "\n"
      + (n.xmlParams + "\n" + ("</conditional> " + "\n" + ("</when>" + "\n"))))
  {
  }

  /** `ToolConditional.get_conditional_block`. */
  function ConditionalBlock(c: ToolConditional): (block: string)
    ensures |block| == |ConditionalOpen| + |c.xmlBlock| + |ConditionalClose|
    ensures ConditionalOpen <= block
    ensures block[|block| - |ConditionalClose|..] == ConditionalClose
    ensures block[|ConditionalOpen|..|block| - |ConditionalClose|] == c.xmlBlock
  {
    ConditionalOpen + c.xmlBlock + ConditionalClose
  }

  /** A nested `<when>` is a `<when>` tag pair around the conditional block of its content
      followed by a break, whatever name that conditional is given. */
  lemma WhenNestedWrapsConditional(n: ToolWhenNested, name: string)
    ensures WhenNestedXml(n) == WhenOpen(n.value) + "\n" + ConditionalBlock(ToolConditional(name, n.xmlParams + "\n")) + "</when>\n"
  {
  }
}
