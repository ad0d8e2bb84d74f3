/** `QueryBuildersBlock`: the document built from the curated archives. It is the
    root `query_type` select — three fixed query kinds, then one option per
    archive keyed by its hash — followed by one nested `<when>` per archive. An
    archive's branch holds a table select and, per table, a `<when>` keyed by the
    table name with a `download_url` select, an `access_url` text param and one
    param per field.
 */
module QueryBuilders {
  import opened Text
  import opened ToolXml
  import opened TapArchives

  // The names and labels the generator prints. The longer labels are written as
  // concatenations of shorter pieces; each is the same text as a single literal.

  const BlockName := "query_type"
  const BlockLabel := "ADQL Query " + "Selection"

  const TableSelectionBlockName := "table_selection"
  const TableSelectionBlockLabel := "Table selection"

  const GenericQueryName := "none"
  const GenericQueryLabel := "No specific query " + "(first n files " + "from archive)"

  const IvoaBuilderName := "obscore_query"
  const IvoaBuilderLabel := "IVOA obscore " + "table query builder"

  const RawQueryName := "raw_query"
  const RawQueryLabel := "Raw ADQL " + "query builder"

  const AccessUrlInputName := "access_url"
  const AccessUrlInputLabel := "Url download field"
  const AccessUrlInputHelp := "Field containing " + "the download url " + "of the file"

  const DownloadSelectName := "download_url"
  const DownloadSelectLabel := "Download field"

  /** The query kinds offered whatever the archives. */
  const FixedOptions := [
    ToolOption(GenericQueryName, GenericQueryLabel),
    ToolOption(IvoaBuilderName, IvoaBuilderLabel),
    ToolOption(RawQueryName, RawQueryLabel)
  ]

  /** Only initialized archives have a name, a hash and tables. */
  predicate AllInitialized(archives: seq<TapArchive>) {
    forall i :: 0 <= i < |archives| ==> archives[i].Initialized?
  }

  /** One option per archive, valued by its hash and showing its name. */
  function ArchiveOptions(archives: seq<TapArchive>): (options: seq<ToolOption>)
    requires AllInitialized(archives)
    ensures |options| == |archives|
    ensures forall i :: 0 <= i < |archives| ==> options[i] == ToolOption(archives[i].hash, archives[i].name)
  {
    if |archives| == 0 then []
    else
      var last := archives[|archives| - 1];
      ArchiveOptions(archives[..|archives| - 1]) + [ToolOption(last.hash, last.name)]
  }

  /** `generate_builder_selection_block`: the root select. */
  function SelectionBlock(archives: seq<TapArchive>): (s: ToolSelect)
    requires AllInitialized(archives)
    ensures s.name == BlockName && s.caption == BlockLabel
    ensures |s.options| == 3 + |archives|
    ensures s.options[0] == ToolOption(GenericQueryName, GenericQueryLabel)
    ensures s.options[1] == ToolOption(IvoaBuilderName, IvoaBuilderLabel)
    ensures s.options[2] == ToolOption(RawQueryName, RawQueryLabel)
    ensures forall i :: 0 <= i < |archives| ==> s.options[3 + i] == ToolOption(archives[i].hash, archives[i].name)
  {
    ToolSelect(BlockName, BlockLabel, FixedOptions + ArchiveOptions(archives))
  }

  /** One option per table, valued and labelled by the table name. This and
      `DownloadUrlOptions` follow two separate loops of the builder, one over the
      catalog's tables and one over a table's fields. */
  function TableOptions(tables: seq<Table>): (options: seq<ToolOption>)
    ensures |options| == |tables|
    ensures forall i :: 0 <= i < |tables| ==> options[i] == ToolOption(tables[i].name, tables[i].name)
  {
    if |tables| == 0 then []
    else TableOptions(tables[..|tables| - 1]) + [ToolOption(tables[|tables| - 1].name, tables[|tables| - 1].name)]
  }

  /** `generate_builder_table_selection_block`: the table select of an archive. */
  function TableSelectionBlock(tables: seq<Table>): (s: ToolSelect)
    ensures s.name == TableSelectionBlockName && s.caption == TableSelectionBlockLabel
    ensures |s.options| == |tables|
    ensures forall i :: 0 <= i < |tables| ==> s.options[i] == ToolOption(tables[i].name, tables[i].name)
  {
    ToolSelect(TableSelectionBlockName, TableSelectionBlockLabel, TableOptions(tables))
  }

  /** The options of the `download_url` select: one per field, valued and labelled by its name.
      This is the field-side twin of `TableOptions`. */
  function DownloadUrlOptions(fields: seq<Field>): (options: seq<ToolOption>)
    ensures |options| == |fields|
    ensures forall i :: 0 <= i < |fields| ==> options[i] == ToolOption(fields[i].name, fields[i].name)
  {
    if |fields| == 0 then []
    else DownloadUrlOptions(fields[..|fields| - 1]) + [ToolOption(fields[|fields| - 1].name, fields[|fields| - 1].name)]
  }

  /** The param a field becomes: named and labelled by the field, typed by its catalog
      type and helped by its description. */
  function FieldParam(f: Field): ToolParam {
    NewToolParam(f.name, f.name, f.dataType, f.description)
  }

  /** One param per field, in field order. */
  function FieldParams(fields: seq<Field>): (params: seq<WhenParam>)
    ensures |params| == |fields|
    ensures forall i :: 0 <= i < |fields| ==> params[i] == Plain(FieldParam(fields[i]))
  {
    if |fields| == 0 then []
    else FieldParams(fields[..|fields| - 1]) + [Plain(FieldParam(fields[|fields| - 1]))]
  }

  /** The text param asking which field holds the download URL. */
  function AccessUrlParam(): ToolParam {
    NewToolParam(AccessUrlInputName, AccessUrlInputLabel, Some("text"), Some(AccessUrlInputHelp))
  }

  /** The `<when>` of one table, as the loop body of `generate_builder_params_block` builds it. */
  function TableWhen(t: Table): (w: ToolWhen)
    ensures w.value == t.name
    ensures |w.params| == 2 + |t.fields|
    ensures w.params[0].Selector?
    ensures w.params[0].select.name == DownloadSelectName && w.params[0].select.caption == DownloadSelectLabel
    ensures |w.params[0].select.options| == |t.fields|
    ensures forall i :: 0 <= i < |t.fields| ==>
      w.params[0].select.options[i] == ToolOption(t.fields[i].name, t.fields[i].name)
    ensures w.params[1] == Plain(AccessUrlParam())
    ensures forall i :: 0 <= i < |t.fields| ==> w.params[2 + i] == Plain(FieldParam(t.fields[i]))
  {
    var download := ToolSelect(DownloadSelectName, DownloadSelectLabel, DownloadUrlOptions(t.fields));
    ToolWhen(t.name, [Selector(download), Plain(AccessUrlParam())] + FieldParams(t.fields))
  }

  /** `generate_builder_params_block`: one `<when>` per table, in table order. */
  function ParamsBlock(tables: seq<Table>): (whens: seq<ToolWhen>)
    ensures |whens| == |tables|
    ensures forall i :: 0 <= i < |tables| ==> whens[i] == TableWhen(tables[i]) && whens[i].value == tables[i].name
  {
    if |tables| == 0 then []
    else ParamsBlock(tables[..|tables| - 1]) + [TableWhen(tables[|tables| - 1])]
  }

  /** The rendered `<when>`s of a list, one after the other. */
  function WhensXml(whens: seq<ToolWhen>): string {
    if |whens| == 0 then "" else WhensXml(whens[..|whens| - 1]) + WhenXml(whens[|whens| - 1])
  }

  /** The content of an archive's branch: its table select, then the `<when>` of each table. */
  function ArchiveParamsXml(tables: seq<Table>): string {
    SelectXml(TableSelectionBlock(tables)) + WhensXml(ParamsBlock(tables))
  }

  /** The nested `<when>` of one archive, keyed by its hash. */
  function NestedBlock(a: TapArchive): string
    requires a.Initialized?
  {
    WhenNestedXml(ToolWhenNested(a.hash, ArchiveParamsXml(a.tables)))
  }

  /** `generate_builders_block`: the nested `<when>` of each archive, in list order. */
  function BuildersBlock(archives: seq<TapArchive>): string
    requires AllInitialized(archives)
  {
    if |archives| == 0 then ""
    else BuildersBlock(archives[..|archives| - 1]) + NestedBlock(archives[|archives| - 1])
  }

  /** `generate_block` followed by `get_xml`: the root select, then the archive branches. */
  function QueryBuildersXml(archives: seq<TapArchive>): string
    requires AllInitialized(archives)
  {
    SelectXml(SelectionBlock(archives)) + BuildersBlock(archives)
  }

  /** The builders block of a concatenation is the concatenation of the builders blocks. */
  lemma {:induction false} BuildersBlockAppend(xs: seq<TapArchive>, ys: seq<TapArchive>)
    requires AllInitialized(xs) && AllInitialized(ys)
    ensures AllInitialized(xs + ys)
    ensures BuildersBlock(xs + ys) == BuildersBlock(xs) + BuildersBlock(ys)
    decreases |ys|
  {
    assert AllInitialized(xs + ys) by {
      forall i | 0 <= i < |xs + ys|
        ensures (xs + ys)[i].Initialized?
      {
        if i >= |xs| {
          assert (xs + ys)[i] == ys[i - |xs|];
        }
      }
    }
    if |ys| == 0 {
      assert xs + ys == xs;
    } else {
      var init := ys[..|ys| - 1];
      var last := ys[|ys| - 1];
      assert AllInitialized(init) by {
        forall i | 0 <= i < |init|
          ensures init[i].Initialized?
        {
          assert init[i] == ys[i];
        }
      }
      assert (xs + ys)[..|xs + ys| - 1] == xs + init;
      assert (xs + ys)[|xs + ys| - 1] == last;
      BuildersBlockAppend(xs, init);
      var a, b, c := BuildersBlock(xs), BuildersBlock(init), NestedBlock(last);
      assert BuildersBlock(xs + ys) == a + b + c;
      assert BuildersBlock(ys) == b + c;
      AppendAssociative(a, b, c);
    }
  }

  /** The branches follow the curated archives: each record contributes, in registry order,
      the nested `<when>` of its archive when curation keeps it, and nothing otherwise. */
  lemma CuratedBranchesInOrder(xs: seq<Candidate>, c: Candidate, ys: seq<Candidate>, md5: string -> string)
    ensures BuildersBlock(NonIvoaArchives(xs + [c] + ys, md5)) ==
      BuildersBlock(NonIvoaArchives(xs, md5))
      + (if Kept(c) then NestedBlock(NewTapArchive(c, md5)) else "")
      + BuildersBlock(NonIvoaArchives(ys, md5))
  {
    CurationPreservesOrder(xs, c, ys, md5);
    var left := NonIvoaArchives(xs, md5);
    var mid: seq<TapArchive> := if Kept(c) then [NewTapArchive(c, md5)] else [];
    var right := NonIvoaArchives(ys, md5);
    BuildersBlockAppend(left, mid);
    BuildersBlockAppend(left + mid, right);
    if Kept(c) {
      BuildersBlockOne(NewTapArchive(c, md5));
    }
  }

  /** An archive's branch is keyed by its hash: the opening tag line carries the hash, the
      archive's content sits between the conditional tag lines. */
  lemma NestedBlockLines(a: TapArchive)
    requires a.Initialized? && OneLine(a.hash)
    ensures Lines(NestedBlock(a)) ==
      [WhenOpen(a.hash), "<conditional> "] + Lines(ArchiveParamsXml(a.tables)) + ["</conditional> ", "</when>", ""]
  {
    WhenNestedLines(ToolWhenNested(a.hash, ArchiveParamsXml(a.tables)));
  }

  /** The builders block of one archive is its nested `<when>`. */
  lemma BuildersBlockOne(a: TapArchive)
    requires a.Initialized?
    ensures BuildersBlock([a]) == NestedBlock(a)
  {
    assert [a][..0] == [];
  }

  /** The root select offers the three fixed query kinds and then one option per curated
      archive: as many archive options as records curation keeps. */
  lemma CuratedRootOptions(candidates: seq<Candidate>, md5: string -> string)
    ensures |SelectionBlock(NonIvoaArchives(candidates, md5)).options| == 3 + |NonIvoaArchives(candidates, md5)|
    ensures forall o :: o in SelectionBlock(NonIvoaArchives(candidates, md5)).options[3..] ==>
      exists c :: c in candidates && Kept(c) && o == ToolOption(NewTapArchive(c, md5).hash, NewTapArchive(c, md5).name)
  {
    var kept := NonIvoaArchives(candidates, md5);
    var options := SelectionBlock(kept).options;
    forall o | o in options[3..]
      ensures exists c :: c in candidates && Kept(c) && o == ToolOption(NewTapArchive(c, md5).hash, NewTapArchive(c, md5).name)
    {
      var j :| 0 <= j < |options[3..]| && options[3..][j] == o;
      assert o == ToolOption(kept[j].hash, kept[j].name);
      assert kept[j] in kept;
    }
  }

  /** The names and labels of the selects and the `access_url` param hold no line break. */
  lemma ConstantsOneLine()
    ensures OneLine(BlockName) && OneLine(BlockLabel)
    ensures OneLine(TableSelectionBlockName) && OneLine(TableSelectionBlockLabel)
    ensures OneLine(AccessUrlInputName) && OneLine(AccessUrlInputLabel) && OneLine(AccessUrlInputHelp)
    ensures OneLine(DownloadSelectName) && OneLine(DownloadSelectLabel)
  {
    NamesOneLine();
    BlockLabelOneLine();
    TableSelectionBlockLabelOneLine();
    AccessUrlInputLabelOneLine();
    AccessUrlInputHelpOneLine();
    DownloadSelectLabelOneLine();
  }

  /** The fixed query kinds hold no line break. */
  lemma FixedOptionsOneLine()
    ensures forall i :: 0 <= i < |FixedOptions| ==> OptionOneLine(FixedOptions[i])
  {
    NamesOneLine();
    GenericQueryLabelOneLine();
    IvoaBuilderLabelOneLine();
    RawQueryLabelOneLine();
  }

  // Each label gets its own lemma, which keeps every proof about literal text small.

  lemma NamesOneLine()
    ensures OneLine(BlockName) && OneLine(TableSelectionBlockName) && OneLine(AccessUrlInputName)
    ensures OneLine(DownloadSelectName) && OneLine(GenericQueryName) && OneLine(IvoaBuilderName) && OneLine(RawQueryName)
  {
  }

  lemma BlockLabelOneLine()
    ensures OneLine(BlockLabel)
  {
    OneLineAppend("ADQL Query ", "Selection");
  }

  lemma TableSelectionBlockLabelOneLine()
    ensures OneLine(TableSelectionBlockLabel)
  {
  }

  lemma AccessUrlInputLabelOneLine()
    ensures OneLine(AccessUrlInputLabel)
  {
  }

  lemma AccessUrlInputHelpOneLine()
    ensures OneLine(AccessUrlInputHelp)
  {
    OneLineAppend("Field containing " + "the download url ", "of the file");
    OneLineAppend("Field containing ", "the download url ");
  }

  lemma DownloadSelectLabelOneLine()
    ensures OneLine(DownloadSelectLabel)
  {
  }

  lemma GenericQueryLabelOneLine()
    ensures OneLine(GenericQueryLabel)
  {
    OneLineAppend("No specific query " + "(first n files ", "from archive)");
    OneLineAppend("No specific query ", "(first n files ");
  }

  lemma IvoaBuilderLabelOneLine()
    ensures OneLine(IvoaBuilderLabel)
  {
    OneLineAppend("IVOA obscore ", "table query builder");
  }

  lemma RawQueryLabelOneLine()
    ensures OneLine(RawQueryLabel)
  {
    OneLineAppend("Raw ADQL ", "query builder");
  }

  /** The option line of each archive, valued by its hash and showing its name: the
      closed form of `OptionLines` over the archive options, which the line lemmas
      index directly (`ArchiveOptionLinesAgree` proves the two equal). */
  function ArchiveOptionLines(archives: seq<TapArchive>): (lines: seq<string>)
    requires AllInitialized(archives)
    ensures |lines| == |archives|
  {
    seq(|archives|, i requires 0 <= i < |archives| => "\t" + OptionXml(ToolOption(archives[i].hash, archives[i].name)))
  }

  /** The root select's lines: its header, the three fixed option lines, one option line per
      archive in list order, and the closing tag. */
  lemma RootSelectorLines(archives: seq<TapArchive>)
    requires AllInitialized(archives)
    requires forall i :: 0 <= i < |archives| ==> OneLine(archives[i].hash) && OneLine(archives[i].name)
    ensures Lines(SelectXml(SelectionBlock(archives))) ==
      [SelectHeader(BlockName, BlockLabel)] + OptionLines(FixedOptions) + ArchiveOptionLines(archives) + ["</param>", ""]
  {
    var s := SelectionBlock(archives);
    SelectionBlockOneLine(archives);
    SelectLines("", s);
    NoIndent(SelectXml(s));
    NoIndent(SelectHeader(s.name, s.caption));
    OptionLinesAppend(FixedOptions, ArchiveOptions(archives));
    ArchiveOptionLinesAgree(archives);
    LinesAssociative([SelectHeader(BlockName, BlockLabel)], OptionLines(FixedOptions), ArchiveOptionLines(archives));
  }

  /** The whole document, line by line: the root select's header, the three fixed option
      lines, one option line per archive in list order, the closing tag, and then the
      lines of the archive branches. */
  lemma DocumentLines(archives: seq<TapArchive>)
    requires AllInitialized(archives)
    requires forall i :: 0 <= i < |archives| ==> OneLine(archives[i].hash) && OneLine(archives[i].name)
    ensures Lines(QueryBuildersXml(archives)) ==
      [SelectHeader(BlockName, BlockLabel)] + OptionLines(FixedOptions) + ArchiveOptionLines(archives)
      + ["</param>"] + Lines(BuildersBlock(archives))
  {
    var s := SelectionBlock(archives);
    SelectionBlockOneLine(archives);
    SelectLinesThen(s, BuildersBlock(archives));
    OptionLinesAppend(FixedOptions, ArchiveOptions(archives));
    ArchiveOptionLinesAgree(archives);
    LinesAssociative([SelectHeader(BlockName, BlockLabel)], OptionLines(FixedOptions), ArchiveOptionLines(archives));
  }

  /** The root select holds no break in its name, label or options when no archive's hash
      or name does. */
  lemma SelectionBlockOneLine(archives: seq<TapArchive>)
    requires AllInitialized(archives)
    requires forall i :: 0 <= i < |archives| ==> OneLine(archives[i].hash) && OneLine(archives[i].name)
    ensures SelectOneLine(SelectionBlock(archives))
  {
    var s := SelectionBlock(archives);
    ConstantsOneLine();
    FixedOptionsOneLine();
    forall i | 0 <= i < |s.options|
      ensures OptionOneLine(s.options[i])
    {
      if i < 3 {
        assert s.options[i] == FixedOptions[i];
      } else {
        assert s.options[3 + (i - 3)] == ToolOption(archives[i - 3].hash, archives[i - 3].name);
      }
    }
  }

  /** The archive options render as the archive option lines. */
  lemma ArchiveOptionLinesAgree(archives: seq<TapArchive>)
    requires AllInitialized(archives)
    ensures OptionLines(ArchiveOptions(archives)) == ArchiveOptionLines(archives)
  {
  }

  /** With no archives the document is the root select with only the three fixed option
      lines, in their fixed order, and nothing after it. */
  lemma EmptyDocument()
    ensures Lines(QueryBuildersXml([])) ==
      [ SelectHeader(BlockName, BlockLabel),
        "\t" + OptionXml(ToolOption(GenericQueryName, GenericQueryLabel)),
        "\t" + OptionXml(ToolOption(IvoaBuilderName, IvoaBuilderLabel)),
        "\t" + OptionXml(ToolOption(RawQueryName, RawQueryLabel)),
        "</param>",
        "" ]
  {
    EmptyDocumentIsRootSelect();
    RootSelectorLines([]);
    FixedOptionLines();
    var header := SelectHeader(BlockName, BlockLabel);
    var fixed := OptionLines(FixedOptions);
    assert ArchiveOptionLines([]) == [];
    assert [header] + fixed + [] + ["</param>", ""] == [header, fixed[0], fixed[1], fixed[2], "</param>", ""];
  }

  /** With no archives there are no branches: the document is the root select alone. */
  lemma EmptyDocumentIsRootSelect()
    ensures QueryBuildersXml([]) == SelectXml(SelectionBlock([]))
  {
    assert BuildersBlock([]) == "";
  }

  /** The fixed option lines, in their fixed order. */
  lemma FixedOptionLines()
    ensures |OptionLines(FixedOptions)| == 3
    ensures OptionLines(FixedOptions)[0] == "\t" + OptionXml(ToolOption(GenericQueryName, GenericQueryLabel))
    ensures OptionLines(FixedOptions)[1] == "\t" + OptionXml(ToolOption(IvoaBuilderName, IvoaBuilderLabel))
    ensures OptionLines(FixedOptions)[2] == "\t" + OptionXml(ToolOption(RawQueryName, RawQueryLabel))
  {
  }

  /** Every name a table's `<when>` renders is free of line breaks. */
  predicate TableOneLine(t: Table) {
    && OneLine(t.name)
    && forall i :: 0 <= i < |t.fields| ==> OneLine(t.fields[i].name) && OneLineOpt(t.fields[i].description)
  }

  /** The `download_url` option line of each field, in field order: the closed form of
      `OptionLines` over `DownloadUrlOptions`, shown equal in `DownloadSelectLines`. */
  function FieldOptionLines(fields: seq<Field>): (lines: seq<string>)
    ensures |lines| == |fields|
  {
    seq(|fields|, i requires 0 <= i < |fields| => "\t" + OptionXml(ToolOption(fields[i].name, fields[i].name)))
  }

  /** The param line of each field, in field order. */
  function FieldParamLines(fields: seq<Field>): (lines: seq<string>)
    ensures |lines| == |fields|
  {
    seq(|fields|, i requires 0 <= i < |fields| => "\t" + ParamXml(FieldParam(fields[i])))
  }

  /** The `download_url` select of a table, as a `<when>` entry: its header, one option line
      per field in field order, its closing tag, and the blank line the entry's break adds. */
  lemma DownloadSelectLines(fields: seq<Field>)
    requires forall i :: 0 <= i < |fields| ==> OneLine(fields[i].name)
    ensures Lines("\t" + WhenParamXml(Selector(ToolSelect(DownloadSelectName, DownloadSelectLabel, DownloadUrlOptions(fields))))) ==
      ["\t" + SelectHeader(DownloadSelectName, DownloadSelectLabel)] + FieldOptionLines(fields) + ["</param>", ""]
  {
    var s := ToolSelect(DownloadSelectName, DownloadSelectLabel, DownloadUrlOptions(fields));
    ConstantsOneLine();
    assert SelectOneLine(s);
    SelectorParamLines(s);
    assert OptionLines(s.options) == FieldOptionLines(fields);
  }

  /** The `access_url` param has type text and carries its help attribute. */
  lemma AccessUrlParamXml()
    ensures AccessUrlParam() == ToolParam(AccessUrlInputName, AccessUrlInputLabel, "text", Some(AccessUrlInputHelp))
    ensures ParamXml(AccessUrlParam()) ==
      ParamOpen(AccessUrlInputName, "text", AccessUrlInputLabel) + (" help=\"" + AccessUrlInputHelp + "\"") + " />"
  {
    assert AccessUrlInputHelp[0] == 'F';
    ParamXmlShape(AccessUrlParam());
  }

  /** The `access_url` param renders as one line. */
  lemma AccessUrlParamLine()
    ensures Lines("\t" + WhenParamXml(Plain(AccessUrlParam()))) == ["\t" + ParamXml(AccessUrlParam())]
  {
    AccessUrlParamXml();
    ConstantsOneLine();
    PlainParamLine(AccessUrlParam());
  }

  /** The field params of a table, as `<when>` entries: one line each, in field order. */
  lemma FieldParamsLines(fields: seq<Field>)
    requires forall i :: 0 <= i < |fields| ==> OneLine(fields[i].name) && OneLineOpt(fields[i].description)
    ensures WhenParamsLines(FieldParams(fields)) == FieldParamLines(fields)
  {
    var params := FieldParams(fields);
    assert forall i :: 0 <= i < |params| ==> params[i].param == FieldParam(fields[i]);
    PlainParamsLines(params);
    assert PlainParamLines(params) == FieldParamLines(fields);
  }

  /** A table's `<when>`, line by line: the opening tag; the `download_url` select with one
      option line per field, its closing tag and the blank line that follows it; the
      `access_url` param; one param line per field in field order; the closing tag. A
      table with no fields still has the empty select and the `access_url` param. */
  lemma TableWhenLines(t: Table)
    requires TableOneLine(t)
    ensures Lines(WhenXml(TableWhen(t))) ==
      [WhenOpen(t.name)]
      + (["\t" + SelectHeader(DownloadSelectName, DownloadSelectLabel)] + FieldOptionLines(t.fields) + ["</param>", ""])
      + ["\t" + ParamXml(AccessUrlParam())]
      + FieldParamLines(t.fields)
      + ["</when>", ""]
  {
    var w := TableWhen(t);
    var download := Selector(ToolSelect(DownloadSelectName, DownloadSelectLabel, DownloadUrlOptions(t.fields)));
    var access := Plain(AccessUrlParam());
    var fieldParams := FieldParams(t.fields);
    assert w.params == [download] + [access] + fieldParams;
    WhenLines(w);
    WhenParamsLinesAppend([download] + [access], fieldParams);
    WhenParamsLinesAppend([download], [access]);
    WhenParamsLinesOne(download);
    WhenParamsLinesOne(access);
    DownloadSelectLines(t.fields);
    AccessUrlParamLine();
    FieldParamsLines(t.fields);
    var selectLines := ["\t" + SelectHeader(DownloadSelectName, DownloadSelectLabel)] + FieldOptionLines(t.fields) + ["</param>", ""];
    var accessLine := ["\t" + ParamXml(AccessUrlParam())];
    assert WhenParamsLines(w.params) == selectLines + accessLine + FieldParamLines(t.fields);
    LinesAssociative([WhenOpen(t.name)], selectLines + accessLine, FieldParamLines(t.fields));
    LinesAssociative([WhenOpen(t.name)], selectLines, accessLine);
  }
}
