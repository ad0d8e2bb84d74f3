/** TAP archives as the generator sees them once the registry and the services
    have answered: a registry record, the outcome of reading the service's table
    catalog, and the archive built from the two — its name, its hash, its tables,
    whether it follows the IVOA ObsCore convention, and whether curation keeps it.

    The registry search, the TAP service and the catalog read are network calls;
    their answers are inputs here. MD5 is passed in as a function.
 */
module TapArchives {
  import opened Text

  /** The table whose presence marks an archive as IVOA compliant. */
  const ObscoreTable := "ivoa.obscore"

  /** A column of a table, as the catalog describes it. */
  datatype Field = Field(name: string, dataType: Option<string>, unit: Option<string>, description: Option<string>)

  /** A table of an archive, with its columns in catalog order. */
  datatype Table = Table(name: string, kind: string, fields: seq<Field>)

  /** A registry record: the attributes the generator reads from it. A record without
      an `access_url` attribute behaves as one whose URL is `None`. */
  datatype RegistryRecord = RegistryRecord(accessUrl: Option<string>, resTitle: Option<string>, shortName: Option<string>)

  /** What `_set_tables` produced for a service. `Listed` holds the tables completely read
      before the catalog loop ended, either normally or through an exception the loop
      catches and prints (a timeout firing inside the loop is one): in the latter case
      the list is partial and is kept anyway. `Escaped` is an exception leaving
      `_set_tables`, which `_initialize` turns into failure. */
  datatype Introspection = Listed(tables: seq<Table>) | Escaped

  /** A registry record together with the answer its service would give. */
  datatype Candidate = Candidate(record: RegistryRecord, introspection: Introspection)

  /** A `TapArchive` object: either `initialized` is false and nothing else was set,
      or it holds its URL, name, hash and tables. */
  datatype TapArchive =
    | Uninitialized
    | Initialized(accessUrl: string, name: string, hash: string, tables: seq<Table>)

  /** `NonIVOATapArchiveWrapper`, as `create_archive_object_non_ivoa` builds it: a record
      with only a URL, its title and short name left empty. */
  function NonIvoaWrapper(accessUrl: Option<string>): RegistryRecord {
    RegistryRecord(accessUrl, Some(""), Some(""))
  }

  /** The name fallback shared by `_set_name` and `_get_archive_name`: the resource title
      if it is set and non-empty, else the short name if it is, else the access URL. */
  function ResolvedName(r: RegistryRecord): (name: Option<string>)
    ensures name == r.resTitle || name == r.shortName || name == r.accessUrl
    ensures Truthy(name) <==> Truthy(r.resTitle) || Truthy(r.shortName) || Truthy(r.accessUrl)
    ensures Truthy(r.resTitle) ==> name == r.resTitle
    ensures Truthy(r.shortName) && name != r.shortName ==> Truthy(r.resTitle)
    ensures !Truthy(name) ==> name == r.accessUrl
  {
    if Truthy(r.resTitle) then r.resTitle
    else if Truthy(r.shortName) then r.shortName
    else r.accessUrl
  }

  /** `_initialize`: it fails when the URL is missing or empty, before any network call,
      and when an exception escapes `_set_tables`. */
  predicate Initializes(c: Candidate) {
    Truthy(c.record.accessUrl) && c.introspection.Listed?
  }

  /** `TapArchive.__init__`: initialize, and only when that succeeds set the name and
      its hash. `get_name` and `get_hash` never recompute, since both are non-empty. */
  function NewTapArchive(c: Candidate, md5: string -> string): (a: TapArchive)
    ensures a.Initialized? <==> Truthy(c.record.accessUrl) && c.introspection.Listed?
    ensures a.Initialized? ==>
      && a.accessUrl == c.record.accessUrl.value
      && ResolvedName(c.record) == Some(a.name)
      && a.name != ""
      && a.hash == md5(a.name)
      && a.tables == c.introspection.tables
  {
    if Initializes(c) then
      var name := ResolvedName(c.record).value;
      Initialized(c.record.accessUrl.value, name, md5(name), c.introspection.tables)
    else
      Uninitialized
  }

  /** `_get_archive_name`: the pair (MD5 of the name, name), with the same fallback but no
      initialization gate. When the fallback reaches a `None` URL, encoding the name
      raises; that is `None` here. */
  function ArchiveNameAndHash(r: RegistryRecord, md5: string -> string): (result: Option<(string, string)>)
    ensures result.None? <==> !Truthy(r.resTitle) && !Truthy(r.shortName) && r.accessUrl.None?
    ensures result.Some? ==> ResolvedName(r) == Some(result.value.1) && result.value.0 == md5(result.value.1)
  {
    match ResolvedName(r)
    case None => None
    case Some(name) => Some((md5(name), name))
  }

  /** An initialized archive has the name and hash `_get_archive_name` computes for its record. */
  lemma ArchiveNameAgrees(c: Candidate, md5: string -> string)
    requires NewTapArchive(c, md5).Initialized?
    ensures ArchiveNameAndHash(c.record, md5) == Some((NewTapArchive(c, md5).hash, NewTapArchive(c, md5).name))
  {
  }

  /** The hash depends on the resolved name alone: archives whose names agree share it,
      whatever their URLs and tables. */
  lemma HashDependsOnNameOnly(c1: Candidate, c2: Candidate, md5: string -> string)
    requires NewTapArchive(c1, md5).Initialized? && NewTapArchive(c2, md5).Initialized?
    requires ResolvedName(c1.record) == ResolvedName(c2.record)
    ensures NewTapArchive(c1, md5).name == NewTapArchive(c2, md5).name
    ensures NewTapArchive(c1, md5).hash == NewTapArchive(c2, md5).hash
  {
  }

  /** A wrapped bare URL is named by that URL once initialized. */
  lemma WrapperNamedByUrl(url: string, introspection: Introspection, md5: string -> string)
    requires url != "" && introspection.Listed?
    ensures NewTapArchive(Candidate(NonIvoaWrapper(Some(url)), introspection), md5)
         == Initialized(url, url, md5(url), introspection.tables)
  {
  }

  /** Lower-casing of one character (ASCII letters only). */
  function LowerChar(c: char): char {
    if 'A' <= c <= 'Z' then (c as int + 32) as char else c
  }

  /** `str.lower` restricted to ASCII letters. */
  function ToLower(s: string): (r: string)
    ensures |r| == |s|
  {
    seq(|s|, i requires 0 <= i < |s| => LowerChar(s[i]))
  }

  /** `_is_ivoa_compliant`: scans the tables in order and stops at the first whose
      lower-cased name is the ObsCore table. */
  function IsIvoaCompliant(tables: seq<Table>): (compliant: bool)
    ensures compliant <==> exists i :: 0 <= i < |tables| && ToLower(tables[i].name) == ObscoreTable
  {
    if |tables| == 0 then false
    else if ToLower(tables[0].name) == ObscoreTable then true
    else
      var rest := IsIvoaCompliant(tables[1..]);
      assert forall i :: 1 <= i < |tables| ==> tables[i] == tables[1..][i - 1];
      rest
  }

  /** The test `get_non_ivoa_archives` applies to each record. */
  predicate Kept(c: Candidate) {
    Initializes(c) && !IsIvoaCompliant(c.introspection.tables)
  }

  /** `get_non_ivoa_archives`: build an archive per record, in registry order, and keep
      those that initialized and are not IVOA compliant. */
  function NonIvoaArchives(candidates: seq<Candidate>, md5: string -> string): (kept: seq<TapArchive>)
    ensures |kept| <= |candidates|
    ensures forall i :: 0 <= i < |kept| ==> kept[i].Initialized? && !IsIvoaCompliant(kept[i].tables)
    ensures forall c :: c in candidates && Kept(c) ==> NewTapArchive(c, md5) in kept
    ensures forall a :: a in kept ==> exists c :: c in candidates && Kept(c) && a == NewTapArchive(c, md5)
  {
    if |candidates| == 0 then []
    else
      var rest := NonIvoaArchives(candidates[1..], md5);
      assert forall c :: c in candidates[1..] ==> c in candidates;
      assert forall c :: c in candidates ==> c == candidates[0] || c in candidates[1..];
      if Kept(candidates[0]) then [NewTapArchive(candidates[0], md5)] + rest else rest
  }

  /** Curation works record by record: curating a concatenation concatenates the results. */
  lemma {:induction false} NonIvoaArchivesAppend(xs: seq<Candidate>, ys: seq<Candidate>, md5: string -> string)
    ensures NonIvoaArchives(xs + ys, md5) == NonIvoaArchives(xs, md5) + NonIvoaArchives(ys, md5)
    decreases |xs|
  {
    if |xs| == 0 {
      assert xs + ys == ys;
    } else {
      assert (xs + ys)[0] == xs[0];
      assert (xs + ys)[1..] == xs[1..] + ys;
      NonIvoaArchivesAppend(xs[1..], ys, md5);
    }
  }

  /** Curation keeps registry order: a record's archive, when kept, sits after those of the
      records before it and before those of the records after it. */
  lemma CurationPreservesOrder(xs: seq<Candidate>, c: Candidate, ys: seq<Candidate>, md5: string -> string)
    ensures NonIvoaArchives(xs + [c] + ys, md5) ==
      NonIvoaArchives(xs, md5) + (if Kept(c) then [NewTapArchive(c, md5)] else []) + NonIvoaArchives(ys, md5)
  {
    NonIvoaArchivesAppend(xs + [c], ys, md5);
    NonIvoaArchivesAppend(xs, [c], md5);
  }

  /** A single record yields its archive when curation keeps it and nothing otherwise: at
      most one archive per record. */
  lemma NonIvoaArchivesOne(c: Candidate, md5: string -> string)
    ensures NonIvoaArchives([c], md5) == if Kept(c) then [NewTapArchive(c, md5)] else []
  {
    CurationPreservesOrder([], c, [], md5);
    assert [] + [c] + [] == [c];
  }

  /** An archive with an ObsCore table in any letter case is dropped; one with only a
      photometry table is kept. */
  lemma ComplianceExamples(url: Option<string>, md5: string -> string)
    requires Truthy(url)
    ensures !Kept(Candidate(NonIvoaWrapper(url), Listed([Table("IVOA.ObsCore", "table", [])])))
    ensures Kept(Candidate(NonIvoaWrapper(url), Listed([Table("photometry", "table", [])])))
  {
    var tables := [Table("IVOA.ObsCore", "table", [])];
    assert ToLower(tables[0].name) == ObscoreTable;
    var other := [Table("photometry", "table", [])];
    assert ToLower(other[0].name)[0] == 'p';
  }

  /** With an empty title the short name is used. */
  lemma NameFallbackExample()
    ensures ResolvedName(RegistryRecord(Some("https://x/tap"), Some(""), Some("X Archive"))) == Some("X Archive")
  {
  }
}
