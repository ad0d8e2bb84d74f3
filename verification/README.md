# tap2tool: query-builder configuration from TAP archives

`tap2tool.py` generates the query-builder part of a Galaxy tool configuration.
It lists TAP services from the IVOA registry and builds a `TapArchive` for each
one: the archive's name, an MD5 hash of that name, and its table and column
catalog. It then keeps the archives that initialized and do not publish the
`ivoa.obscore` table. Finally `QueryBuildersBlock` renders the kept archives as
XML text:

- a root `query_type` select with three fixed query kinds and one option per archive;
- then one nested `<when>` per archive, keyed by its hash;
- inside each, a table select;
- then, per table, a `<when>` holding a `download_url` select, an `access_url` text param and one param per column.

This project models that pure core in Dafny:

- `text.dfy` (`Text`): Python's optional strings and truthiness, and the
  line structure of rendered text. `Lines` behaves like `str.split("\n")`, and
  `JoinLines` is its inverse.
- `tool_xml.dfy` (`ToolXml`): the element builders `ToolParam`,
  `ToolOption`, `ToolSelect`, `ToolWhen`, `ToolWhenNested` and
  `ToolConditional`. Each is an immutable value whose `get_xml` is a rendering
  function. The lemmas give the exact line structure of each rendering.
- `tap_archive.dfy` (`TapArchives`) covers:
  - registry records and the outcome of reading a service's catalog, as data;
  - the initialization gate;
  - name resolution and the hash;
  - IVOA compliance and curation (`get_non_ivoa_archives`).
- `query_builders.dfy` (`QueryBuilders`) covers `QueryBuildersBlock`:
  - the options and branches it builds, with their order and counts;
  - the line structure of the root select, of each table's `<when>` and of each archive's branch;
  - how curation order carries through to the document.

MD5 is a parameter `md5: string -> string`. Every hash fact holds for any
deterministic function of the name. The registry search and the TAP service
answers are inputs: a `Candidate` pairs a registry record with the outcome of
reading its catalog.

Behaviour of the code that the model keeps:

- A catalog read that stops early through an exception caught inside the read
  loop (tap2tool.py:128-146) keeps the tables read so far, and the archive is
  still initialized. That loop catches every exception, including the timeout
  when it fires there. Of the catalog read's outcomes, only an exception
  leaving `_set_tables` makes `_initialize` fail (tap2tool.py:97-100); that case is `Escaped`.
- An empty or missing access URL makes the archive uninitialized
  (tap2tool.py:87-93), so the archive gets no name and no hash.
- Curation goes through the records one at a time and keeps registry order.
- The root select has one option per archive in the list it is given. That
  list holds the non-compliant archives: curation drops the compliant ones.
- A param's help text is rendered as given. No default help is applied.

## Model

| member | source | states |
|---|---|---|
| ToolXml.NewToolParam | tap2tool.py:329-347 | the stored type is always one of int, text, float, select; a non-empty allowed type is kept unchanged; a missing, empty or unlisted type becomes "text"; name, label and help are stored as given |
| ToolXml.HelpAttr | tap2tool.py:349-357 | the help attribute is non-empty exactly when the help text is neither None nor empty |
| ToolXml.ParamXmlShape | tap2tool.py:349-357 | for a param whose stored type is allowed, `get_xml` is the name, stored type and label, then the help attribute when there is help, then ` />`; so the two default-type branches are never taken; the rendering is one line when name, label and help are free of line breaks |
| ToolXml.OptionsXmlLines | tap2tool.py:385-386 | the option loop of a select yields exactly one line per option, tab-indented, in input order, and then whatever follows |
| ToolXml.SelectLines | tap2tool.py:377-390 | a rendered select is its header line, then exactly one tab-indented option line per option in input order, then `</param>`, then the end of the text: as many lines as options plus 3 and no other option lines |
| ToolXml.SelectLinesThen | tap2tool.py:377-390 | a select followed by more text is its header line, one tab-indented option line per option in order, `</param>`, then the lines of the text that follows |
| ToolXml.SelectFraming | tap2tool.py:377-390 | a rendered select starts with its header and a break and ends with `</param>` and a break |
| ToolXml.WhenParamsXmlLines | tap2tool.py:405-406 | the entry loop of a `<when>` yields the lines of each entry's XML, tab-prefixed, in order, and then whatever follows |
| ToolXml.WhenParamsLinesAppend | tap2tool.py:405-406 | the lines of a `<when>`'s entries split along any split of the entry list |
| ToolXml.WhenLines | tap2tool.py:399-410 | a rendered `<when>` is its opening tag line, the lines of each param's XML tab-prefixed in order, `</when>`, then the end of the text |
| ToolXml.PlainParamsLines | tap2tool.py:405-406 | entries that are one-line params with allowed types contribute exactly one tab-indented line each, in order |
| ToolXml.SelectorParamLines | tap2tool.py:405-406 | an entry holding a select contributes the select's header line tab-indented, its option lines and its closing line, plus the empty line its trailing break leaves |
| ToolXml.WhenNestedLines | tap2tool.py:419-432 | a rendered nested `<when>` is its opening tag line, the conditional opening line, the lines of its content, the conditional closing line, `</when>`, then the end of the text |
| ToolXml.ConditionalBlock | tap2tool.py:444-449 | the conditional block starts with the opening tag, ends with the closing tag, and holds exactly the given block between them |
| ToolXml.WhenNestedWrapsConditional | tap2tool.py:419-449 | a nested `<when>` is its opening tag and a break, then the conditional block of its content followed by a break, then `</when>` and a break, whatever name the conditional has |
| TapArchives.ResolvedName | tap2tool.py:104-113 | the name is the resource title if it is neither None nor empty, else the short name if it is neither, else the access URL; the result is one of the three, and it is non-empty exactly when one of them is |
| TapArchives.NewTapArchive | tap2tool.py:74-102 | an archive initializes exactly when its access URL is neither None nor empty and no exception escapes the catalog read; only then does it get a non-empty name from the fallback, the hash of that name, its URL and the tables read |
| TapArchives.ArchiveNameAndHash | tap2tool.py:563-577 | `_get_archive_name` fails exactly when title and short name are both empty or None and the URL is None; otherwise it returns the MD5 of the fallback name paired with that name, whether or not the record would initialize (an empty URL gives the pair for "") |
| TapArchives.ArchiveNameAgrees | tap2tool.py:104-119 | an initialized archive's name and hash are the pair `_get_archive_name` computes for its record |
| TapArchives.HashDependsOnNameOnly | tap2tool.py:115-119 | initialized archives whose resolved names agree have the same name and the same hash, whatever their URLs and tables |
| TapArchives.WrapperNamedByUrl | tap2tool.py:619-622 | a bare URL wrapped as a registry record is named by that URL and hashed from it once initialized |
| TapArchives.IsIvoaCompliant | tap2tool.py:160-171 | an archive is compliant exactly when some table name, lower-cased, equals `ivoa.obscore` |
| TapArchives.ComplianceExamples | tap2tool.py:160-171 | a table named `IVOA.ObsCore` makes an archive compliant and curation drops it; a single other table does not |
| TapArchives.NameFallbackExample | tap2tool.py:104-113 | an empty title falls back to the short name |
| TapArchives.NonIvoaArchives | tap2tool.py:580-592 | curation keeps at most as many archives as there are records; every kept archive is initialized and non-compliant; an archive is kept exactly when its record initializes and is non-compliant |
| TapArchives.NonIvoaArchivesAppend | tap2tool.py:584-590 | curation works record by record: curating a concatenation concatenates the results |
| TapArchives.NonIvoaArchivesOne | tap2tool.py:584-590 | one record yields exactly its archive when it initializes and is non-compliant, and nothing otherwise: at most one archive per record |
| TapArchives.CurationPreservesOrder | tap2tool.py:584-590 | a record's archive, when kept, comes after those of earlier records and before those of later records |
| QueryBuilders.ArchiveOptions | tap2tool.py:235-237 | one option per archive, in list order, valued by its hash and showing its name |
| QueryBuilders.SelectionBlock | tap2tool.py:222-241 | the root select is `query_type` with exactly 3 options more than there are archives: `none`, `obscore_query`, `raw_query`, then each archive's (hash, name) in list order |
| QueryBuilders.FixedOptionLines | tap2tool.py:226-233 | the three fixed options render as three lines in the fixed order |
| QueryBuilders.RootSelectorLines | tap2tool.py:222-241 | the rendered root select is its header line, the three fixed option lines, one option line per archive in list order, then `</param>` |
| QueryBuilders.DocumentLines | tap2tool.py:314-315 | the whole document is the root select header, the three fixed option lines, one option line per archive in list order, `</param>`, then the lines of the archive branches |
| QueryBuilders.EmptyDocument | tap2tool.py:314-315 | with no archives the document is the root select with only the three fixed option lines and nothing after it |
| QueryBuilders.EmptyDocumentIsRootSelect | tap2tool.py:314-315 | with no archives there are no branches after the root select |
| QueryBuilders.CuratedRootOptions | tap2tool.py:222-241 | the root select over the curated archives has three fixed options plus one per kept archive, and every archive option is the (hash, name) of a record curation keeps |
| QueryBuilders.TableOptions | tap2tool.py:303-305 | one option per table, in table order, valued and labelled by the table name |
| QueryBuilders.TableSelectionBlock | tap2tool.py:299-312 | the table select is `table_selection` with exactly one option per table, in order |
| QueryBuilders.DownloadUrlOptions | tap2tool.py:279-281 | one `download_url` option per field, in field order, valued and labelled by the field name |
| QueryBuilders.FieldParams | tap2tool.py:283-284 | one param per field, in field order, named and labelled by the field, typed by its catalog type and helped by its description |
| QueryBuilders.TableWhen | tap2tool.py:267-293 | a table's `<when>` is keyed by the table name and has exactly 2 entries more than there are fields: the `download_url` select with one option per field in order, the `access_url` text param, then one param per field in order |
| QueryBuilders.ParamsBlock | tap2tool.py:264-297 | one `<when>` per table, in table order, keyed by the table name |
| QueryBuilders.AccessUrlParamXml | tap2tool.py:272-275 | the `access_url` param is stored with type text and its help text, and renders with that type and a help attribute |
| QueryBuilders.AccessUrlParamLine | tap2tool.py:272-275 | the `access_url` param renders as one tab-indented line |
| QueryBuilders.DownloadSelectLines | tap2tool.py:286-289 | the `download_url` select renders as its header line, one option line per field in field order, and its closing line |
| QueryBuilders.FieldParamsLines | tap2tool.py:283-284 | the field params render as one tab-indented line each, in field order |
| QueryBuilders.TableWhenLines | tap2tool.py:264-297 | a rendered table `<when>`, line by line: opening tag; the `download_url` select with one option line per field; the `access_url` param line; one param line per field; closing tag; a table with no fields still has the empty select and the `access_url` param |
| QueryBuilders.BuildersBlockAppend | tap2tool.py:243-262 | the branches of a concatenated archive list are the branches of each part, one after the other |
| QueryBuilders.BuildersBlockOne | tap2tool.py:246-260 | one archive contributes exactly its nested `<when>` |
| QueryBuilders.NestedBlockLines | tap2tool.py:250-260 | an archive's branch opens with a `<when>` keyed by its hash and holds its table select and table branches between the conditional tag lines |
| QueryBuilders.CuratedBranchesInOrder | tap2tool.py:243-262 | the branches follow curation: each record contributes its archive's nested `<when>`, in registry order, when curation keeps it, and nothing otherwise |

## Left out

- The `timeout` decorator and `timeit` rely on SIGALRM and wall-clock time. A
  timeout is either an exception inside the catalog loop, which keeps a partial
  list, or one escaping `_set_tables` (`Escaped`).
- pyvo network access (`TAPService`, `service.tables`, `registry.search`,
  `getrecord`) is not modelled. Registry records and catalogs are inputs.
- `_is_ivoa_compliant` reads `service.tables` a second time over the network
  (tap2tool.py:164), and prints and swallows errors. The model evaluates
  compliance over the tables the archive holds. So an archive whose catalog read
  stopped before reaching `ivoa.obscore` is kept by the model, while the
  source's second read could still find the table and drop it. Conversely, a
  second read that fails early would keep an archive the model drops.
- MD5 internals are not modelled: hashing is a parameter.
- `FileHandler`, `create_xml_query_builders_block_file` and all printing are
  file and console I/O.
- The dead, debug or unfinished helpers are not modelled:
  - `get_archive_tables`, `get_archive_fields`, `_set_archive_tables`, `_set_archive_tables_summary`;
  - `_create_xml_conditional_archive`, `_create_xml_query_builders_list`, `_create_xml_archive_query_builder`;
  - `create_query_builders_xml_block`, which returns an empty string without rendering;
  - `get_tap_archives`, `test_custom`, `test_main`.
- `get_non_ivoa_archives` reads exactly ten records (`range(10)`). It is
  modelled over an arbitrary sequence of records.
- Exceptions that escape `TapArchive.__init__` are not modelled:
  - `TAPService` raising on a bad URL;
  - a record lacking `res_title` or `short_name`.

  They would abort curation as a whole.
- `QueryBuildersBlock.get_xml` before `generate_block` would fail on an empty
  string. The model renders the generated block.
- No XML escaping happens, and the model claims no well-formedness. The line
  lemmas assume that names, labels, hashes and help texts hold no line break.
- TapArchives.ToLower lower-cases ASCII letters only, where Python's
  `str.lower` covers all of Unicode. The only comparison is against the ASCII
  text `ivoa.obscore`. Two non-ASCII characters lower-case to text holding ASCII
  letters:
  - the Kelvin sign becomes `k`, which does not occur in `ivoa.obscore`;
  - `İ` (U+0130) becomes `i` followed by a combining dot, which cannot match.

  So the comparison comes out the same (argued here, not proved).
- `_set_hash` and `get_name` recompute the name when it is empty, and `get_hash`
  recomputes the hash when the hash is empty (tap2tool.py:115-119, 148-158). An
  initialized archive always has a non-empty name, and recomputing its hash
  hashes that same name again. So these calls always return the stored name and
  hash, and they are not modelled separately.
- QueryBuilders.ArchiveOptions, QueryBuilders.SelectionBlock, QueryBuilders.BuildersBlock and
  QueryBuilders.QueryBuildersXml require every archive to be initialized. For an
  uninitialized archive the source would raise `AttributeError` in `get_hash` or
  `get_name` (tap2tool.py:148-158), or a `TypeError` when
  `generate_builders_block` iterates its `None` table list (tap2tool.py:250, 303).
  Every caller passes curated archives, which are all initialized.
- Field units and table kinds are carried as data. Nothing in the core renders them.
