/** The normalization schemas of the application designer and what normalizr
    does with them.

    The schemas declare the ownership tree
    Application -> sections[] -> rows[] -> columns[] -> input?
    with three roots (application, section, row). Normalizing a payload
    against one of them stores every nested entity in the table of its type,
    keyed by id, and replaces each nested object by its id and each nested
    array by the ordered list of ids.

    The declarations are kept as data (`Schema`). normalizr's documented
    behaviour on them is written out by hand, one function per level
    (`Normalize*`), following those declarations; the functions do not read
    the `Schema` values, which serve to state which tables each root writes
    into (`RootSchemasShareTables`). The specification the functions are
    proved against is the `Census` of a payload, the
    flattened record of every entity occurrence in document order, and its
    inverse `Denormalize*`, which rebuilds the nested payload from the tables.
 */
module Schemas {
  import opened Shapes
  import opened Tables

  // ---------------------------------------------------------------------
  // The declarations
  // ---------------------------------------------------------------------

  /** A `schema.Entity`: the table its entities go to and the fields of an
      entity that hold nested entities. */
  datatype Schema = Entity(key: string, definition: seq<Relation>)

  /** `field: schema` nests one entity; `field: [schema]` nests an array. */
  datatype Relation = One(field: string, target: Schema) | Many(field: string, target: Schema)

  const inputSchema := Entity("inputs", [])
  const columnSchema := Entity("columns", [One("input", inputSchema)])
  const rowSchema := Entity("rows", [Many("columns", columnSchema)])
  const sectionSchema := Entity("sections", [Many("rows", rowSchema)])

  const ApplicationSchema := Entity("applications", [Many("sections", sectionSchema)])
  const SectionSchema :=
    Entity("sections", [Many("rows", rowSchema), One("application", Entity("applications", []))])
  const RowSchema := Entity("rows", [Many("columns", columnSchema)])

  /** The tables a schema writes into: its own and those of every schema
      nested in it. */
  function TableNames(s: Schema): set<string>
    decreases s
  {
    {s.key} + RelationTables(s.definition)
  }

  function RelationTables(rs: seq<Relation>): set<string>
    decreases rs
  {
    if rs == [] then {} else TableNames(rs[0].target) + RelationTables(rs[1..])
  }

  const AllTables: set<string> := {"applications", "sections", "rows", "columns", "inputs"}

  lemma OneRelation(r: Relation)
    ensures RelationTables([r]) == TableNames(r.target)
  {
    assert [r][1..] == [];
  }

  /** The root schemas write into the same table names, so the outputs of
      the three fetches can be merged table by table; the row root is the
      very declaration nested inside sections, and the section root differs
      from the nested section only by its `application` entity. */
  lemma RootSchemasShareTables()
    ensures TableNames(ApplicationSchema) == AllTables
    ensures TableNames(SectionSchema) == AllTables
    ensures TableNames(RowSchema) == {"rows", "columns", "inputs"}
    ensures RowSchema == rowSchema && sectionSchema.definition[0].target == RowSchema
    ensures SectionSchema.definition == sectionSchema.definition + [One("application", Entity("applications", []))]
  {
    OneRelation(One("input", inputSchema));
    assert TableNames(columnSchema) == {"columns", "inputs"};
    OneRelation(Many("columns", columnSchema));
    assert TableNames(rowSchema) == {"rows", "columns", "inputs"};
    OneRelation(Many("rows", rowSchema));
    assert TableNames(sectionSchema) == {"sections", "rows", "columns", "inputs"};
    OneRelation(Many("sections", sectionSchema));
    var rs := SectionSchema.definition;
    OneRelation(rs[1]);
    assert rs[1..] == [rs[1]];
    assert TableNames(Entity("applications", [])) == {"applications"};
  }

  // ---------------------------------------------------------------------
  // normalizr's output
  // ---------------------------------------------------------------------

  /** The `entities` object: one table per entity type. */
  datatype Entities = Entities(
    applications: map<Id, Application>,
    sections: map<Id, Section>,
    rows: map<Id, Row>,
    columns: map<Id, Column>,
    inputs: map<Id, Input>)

  const NoEntities := Entities(map[], map[], map[], map[], map[])

  /** The tables of two subtrees together; on an id both hold, the later
      subtree's record is kept. */
  function Merge(a: Entities, b: Entities): Entities
  {
    Entities(
      a.applications + b.applications, a.sections + b.sections, a.rows + b.rows,
      a.columns + b.columns, a.inputs + b.inputs)
  }

  /** The keys present on the `entities` object: a table exists once an
      entity of its type has been added. */
  function EntityKeys(e: Entities): set<string>
  {
    (if e.applications == map[] then {} else {"applications"})
    + (if e.sections == map[] then {} else {"sections"})
    + (if e.rows == map[] then {} else {"rows"})
    + (if e.columns == map[] then {} else {"columns"})
    + (if e.inputs == map[] then {} else {"inputs"})
  }

  /** `normalize(data, schema)` returns `{ result, entities }`. */
  datatype Normalized<T> = Normalized(result: T, entities: Entities)

  const Absent: Normalized<Option<Id>> := Normalized(None, NoEntities)

  // ---------------------------------------------------------------------
  // normalizr on these schemas. An entity's nested fields are normalized
  // first, each replaced by what its visit returns, and the entity itself
  // is then added to its table under its id.
  // ---------------------------------------------------------------------

  /** inputSchema */
  function NormalizeInput(i: Input): Normalized<Id>
  {
    Normalized(i.id, NoEntities.(inputs := map[i.id := i]))
  }

  /** columnSchema: `input` becomes the input's id. */
  function NormalizeColumn(c: ColumnNode): Normalized<Id>
  {
    var input :=
      match c.input
      case None => Absent
      case Some(i) => var n := NormalizeInput(i); Normalized(Some(n.result), n.entities);
    var record := Column(c.id, c.rowId, c.sectionId, input.result);
    Normalized(c.id, Merge(input.entities, NoEntities.(columns := map[c.id := record])))
  }

  /** `[columnSchema]`: every element normalized in turn. */
  function NormalizeColumns(cs: seq<ColumnNode>): (n: Normalized<seq<Id>>)
    ensures n.result == ColumnIds(cs)
  {
    if cs == [] then Normalized([], NoEntities)
    else
      var first := NormalizeColumn(cs[0]);
      var rest := NormalizeColumns(cs[1..]);
      Normalized([first.result] + rest.result, Merge(first.entities, rest.entities))
  }

  /** rowSchema, and RowSchema at the root: `columns` becomes the list of
      column ids. */
  function NormalizeRow(r: RowNode): Normalized<Id>
  {
    var columns :=
      match r.columns
      case None => Normalized(None, NoEntities)
      case Some(cs) => var n := NormalizeColumns(cs); Normalized(Some(n.result), n.entities);
    var record := Row(r.id, r.sectionId, r.numOfCols, columns.result);
    Normalized(r.id, Merge(columns.entities, NoEntities.(rows := map[r.id := record])))
  }

  /** `[rowSchema]` */
  function NormalizeRows(rs: seq<RowNode>): (n: Normalized<seq<Id>>)
    ensures n.result == RowIds(rs)
  {
    if rs == [] then Normalized([], NoEntities)
    else
      var first := NormalizeRow(rs[0]);
      var rest := NormalizeRows(rs[1..]);
      Normalized([first.result] + rest.result, Merge(first.entities, rest.entities))
  }

  /** The `rows` field of a section, absent or an array. */
  function NormalizeSectionRows(rows: Option<seq<RowNode>>): Normalized<Option<seq<Id>>>
  {
    match rows
    case None => Normalized(None, NoEntities)
    case Some(rs) => var n := NormalizeRows(rs); Normalized(Some(n.result), n.entities)
  }

  /** sectionSchema: `rows` becomes the list of row ids. */
  function NormalizeSection(s: SectionNode): Normalized<Id>
  {
    var rows := NormalizeSectionRows(s.rows);
    var record := Section(s.id, s.applicationId, s.title, s.details, s.numOfCols, rows.result, None);
    Normalized(s.id, Merge(rows.entities, NoEntities.(sections := map[s.id := record])))
  }

  /** `[sectionSchema]` */
  function NormalizeSections(ss: seq<SectionNode>): (n: Normalized<seq<Id>>)
    ensures n.result == SectionIds(ss)
  {
    if ss == [] then Normalized([], NoEntities)
    else
      var first := NormalizeSection(ss[0]);
      var rest := NormalizeSections(ss[1..]);
      Normalized([first.result] + rest.result, Merge(first.entities, rest.entities))
  }

  /** ApplicationSchema: `sections` becomes the list of section ids. */
  function NormalizeApplication(a: ApplicationNode): Normalized<Id>
  {
    var sections :=
      match a.sections
      case None => Normalized(None, NoEntities)
      case Some(ss) => var n := NormalizeSections(ss); Normalized(Some(n.result), n.entities);
    var record := Application(a.id, a.title, a.details, sections.result);
    Normalized(a.id, Merge(sections.entities, NoEntities.(applications := map[a.id := record])))
  }

  /** The sibling `application` object, added to its table as it is. */
  function NormalizeSibling(application: Option<Application>): Normalized<Option<Id>>
  {
    match application
    case None => Absent
    case Some(app) => Normalized(Some(app.id), NoEntities.(applications := map[app.id := app]))
  }

  /** The section record over its normalized rows and sibling, added last. */
  function AttachSection(s: SectionNode, rows: Normalized<Option<seq<Id>>>,
                         application: Normalized<Option<Id>>): Normalized<Id>
  {
    var record := Section(s.id, s.applicationId, s.title, s.details, s.numOfCols, rows.result, application.result);
    Normalized(s.id, Merge(Merge(rows.entities, application.entities), NoEntities.(sections := map[s.id := record])))
  }

  /** SectionSchema: `rows` becomes the list of row ids and the single
      `application` object becomes its id; that application is stored as it
      came, its own fields left unexpanded. */
  function NormalizeSectionTree(t: SectionTree): Normalized<Id>
  {
    AttachSection(t.section, NormalizeSectionRows(t.section.rows), NormalizeSibling(t.application))
  }

  // ---------------------------------------------------------------------
  // The specification: one flat record per entity occurrence
  // ---------------------------------------------------------------------

  function ColumnIds(cs: seq<ColumnNode>): (ids: seq<Id>)
  {
    seq(|cs|, i requires 0 <= i < |cs| => cs[i].id)
  }

  function RowIds(rs: seq<RowNode>): (ids: seq<Id>)
  {
    seq(|rs|, i requires 0 <= i < |rs| => rs[i].id)
  }

  function SectionIds(ss: seq<SectionNode>): (ids: seq<Id>)
  {
    seq(|ss|, i requires 0 <= i < |ss| => ss[i].id)
  }

  /** A column with its input replaced by the input's id. */
  function FlatColumn(c: ColumnNode): Column
  {
    Column(c.id, c.rowId, c.sectionId, if c.input.Some? then Some(c.input.value.id) else None)
  }

  /** A row with its columns replaced by their ids, in order. */
  function FlatRow(r: RowNode): Row
  {
    Row(r.id, r.sectionId, r.numOfCols, if r.columns.Some? then Some(ColumnIds(r.columns.value)) else None)
  }

  /** A section with its rows replaced by their ids, in order, and its
      parent application, if it comes with one, by that application's id. */
  function FlatSection(s: SectionNode, application: Option<Application>): Section
  {
    Section(
      s.id, s.applicationId, s.title, s.details, s.numOfCols,
      if s.rows.Some? then Some(RowIds(s.rows.value)) else None,
      if application.Some? then Some(application.value.id) else None)
  }

  /** An application with its sections replaced by their ids, in order. */
  function FlatApplication(a: ApplicationNode): Application
  {
    Application(a.id, a.title, a.details, if a.sections.Some? then Some(SectionIds(a.sections.value)) else None)
  }

  /** The flat records of a payload, listed per type in document order. */
  datatype Census = Census(
    applications: seq<Application>,
    sections: seq<Section>,
    rows: seq<Row>,
    columns: seq<Column>,
    inputs: seq<Input>)

  const Nobody := Census([], [], [], [], [])

  function Join(a: Census, b: Census): Census
  {
    Census(
      a.applications + b.applications, a.sections + b.sections, a.rows + b.rows,
      a.columns + b.columns, a.inputs + b.inputs)
  }

  function ColumnCensus(c: ColumnNode): (census: Census)
  {
    Join(if c.input.Some? then Nobody.(inputs := [c.input.value]) else Nobody,
         Nobody.(columns := [FlatColumn(c)]))
  }

  function ColumnsCensus(cs: seq<ColumnNode>): (census: Census)
    ensures census.applications == [] && census.sections == [] && census.rows == []
    ensures |census.columns| == |cs|
  {
    if cs == [] then Nobody else Join(ColumnCensus(cs[0]), ColumnsCensus(cs[1..]))
  }

  function RowCensus(r: RowNode): (census: Census)
    ensures census.applications == [] && census.sections == [] && census.rows == [FlatRow(r)]
  {
    Join(if r.columns.Some? then ColumnsCensus(r.columns.value) else Nobody,
         Nobody.(rows := [FlatRow(r)]))
  }

  function RowsCensus(rs: seq<RowNode>): (census: Census)
    ensures census.applications == [] && census.sections == []
    ensures |census.rows| == |rs|
  {
    if rs == [] then Nobody else Join(RowCensus(rs[0]), RowsCensus(rs[1..]))
  }

  function SectionRowsCensus(rows: Option<seq<RowNode>>): (census: Census)
    ensures census.applications == [] && census.sections == []
  {
    if rows.Some? then RowsCensus(rows.value) else Nobody
  }

  function SectionCensus(s: SectionNode): (census: Census)
    ensures census.applications == [] && census.sections == [FlatSection(s, None)]
  {
    Join(SectionRowsCensus(s.rows), Nobody.(sections := [FlatSection(s, None)]))
  }

  function SectionsCensus(ss: seq<SectionNode>): (census: Census)
    ensures census.applications == []
    ensures |census.sections| == |ss|
  {
    if ss == [] then Nobody else Join(SectionCensus(ss[0]), SectionsCensus(ss[1..]))
  }

  function ApplicationCensus(a: ApplicationNode): (census: Census)
    ensures census.applications == [FlatApplication(a)]
  {
    Join(if a.sections.Some? then SectionsCensus(a.sections.value) else Nobody,
         Nobody.(applications := [FlatApplication(a)]))
  }

  function SectionTreeCensus(t: SectionTree): (census: Census)
    ensures census.sections == [FlatSection(t.section, t.application)]
    ensures census.applications == if t.application.Some? then [t.application.value] else []
  {
    Join(Join(SectionRowsCensus(t.section.rows),
              if t.application.Some? then Nobody.(applications := [t.application.value]) else Nobody),
         Nobody.(sections := [FlatSection(t.section, t.application)]))
  }

  // ---------------------------------------------------------------------
  // Tables against the census
  // ---------------------------------------------------------------------

  function ApplicationKey(a: Application): Id { a.id }
  function SectionKey(s: Section): Id { s.id }
  function RowKey(r: Row): Id { r.id }
  function ColumnKey(c: Column): Id { c.id }
  function InputKey(i: Input): Id { i.id }

  /** Every table has exactly one key per id in the census. */
  ghost predicate KeyedBy(e: Entities, c: Census)
  {
    && Keyed(e.applications, c.applications, ApplicationKey)
    && Keyed(e.sections, c.sections, SectionKey)
    && Keyed(e.rows, c.rows, RowKey)
    && Keyed(e.columns, c.columns, ColumnKey)
    && Keyed(e.inputs, c.inputs, InputKey)
  }

  /** Every record of the census is stored under its id. */
  ghost predicate StoredIn(e: Entities, c: Census)
  {
    && Stores(e.applications, c.applications, ApplicationKey)
    && Stores(e.sections, c.sections, SectionKey)
    && Stores(e.rows, c.rows, RowKey)
    && Stores(e.columns, c.columns, ColumnKey)
    && Stores(e.inputs, c.inputs, InputKey)
  }

  /** The tables hold exactly the records of the census. */
  ghost predicate Describes(e: Entities, c: Census)
  {
    KeyedBy(e, c) && StoredIn(e, c)
  }

  /** Ids are unique per entity type: the assumption the source makes of the
      server's payloads. */
  ghost predicate Distinct(c: Census)
  {
    && DistinctBy(c.applications, ApplicationKey)
    && DistinctBy(c.sections, SectionKey)
    && DistinctBy(c.rows, RowKey)
    && DistinctBy(c.columns, ColumnKey)
    && DistinctBy(c.inputs, InputKey)
  }

  lemma DistinctJoin(a: Census, b: Census)
    requires Distinct(Join(a, b))
    ensures Distinct(a) && Distinct(b)
  {
    DistinctByPrefix(a.applications, b.applications, ApplicationKey);
    DistinctByPrefix(a.sections, b.sections, SectionKey);
    DistinctByPrefix(a.rows, b.rows, RowKey);
    DistinctByPrefix(a.columns, b.columns, ColumnKey);
    DistinctByPrefix(a.inputs, b.inputs, InputKey);
  }

  /** The entities of two subtrees merge into the entities of both: the keys
      always, the stored records when no id is shared. */
  lemma MergeJoin(e1: Entities, c1: Census, e2: Entities, c2: Census)
    requires KeyedBy(e1, c1) && KeyedBy(e2, c2)
    ensures KeyedBy(Merge(e1, e2), Join(c1, c2))
    ensures Distinct(Join(c1, c2)) && StoredIn(e1, c1) && StoredIn(e2, c2) ==>
              StoredIn(Merge(e1, e2), Join(c1, c2))
  {
    KeyedUnion(e1.applications, c1.applications, e2.applications, c2.applications, ApplicationKey);
    KeyedUnion(e1.sections, c1.sections, e2.sections, c2.sections, SectionKey);
    KeyedUnion(e1.rows, c1.rows, e2.rows, c2.rows, RowKey);
    KeyedUnion(e1.columns, c1.columns, e2.columns, c2.columns, ColumnKey);
    KeyedUnion(e1.inputs, c1.inputs, e2.inputs, c2.inputs, InputKey);
    if Distinct(Join(c1, c2)) && StoredIn(e1, c1) && StoredIn(e2, c2) {
      StoresUnion(e1.applications, c1.applications, e2.applications, c2.applications, ApplicationKey);
      StoresUnion(e1.sections, c1.sections, e2.sections, c2.sections, SectionKey);
      StoresUnion(e1.rows, c1.rows, e2.rows, c2.rows, RowKey);
      StoresUnion(e1.columns, c1.columns, e2.columns, c2.columns, ColumnKey);
      StoresUnion(e1.inputs, c1.inputs, e2.inputs, c2.inputs, InputKey);
    }
  }

  /** The conclusion every normalization lemma below draws for its level. */
  ghost predicate Normalizes(e: Entities, c: Census)
  {
    KeyedBy(e, c) && (Distinct(c) ==> StoredIn(e, c))
  }

  lemma NormalizesJoin(e1: Entities, c1: Census, e2: Entities, c2: Census)
    requires Normalizes(e1, c1) && Normalizes(e2, c2)
    ensures Normalizes(Merge(e1, e2), Join(c1, c2))
  {
    if Distinct(Join(c1, c2)) {
      DistinctJoin(c1, c2);
    }
    MergeJoin(e1, c1, e2, c2);
  }

  lemma NothingNormalizes()
    ensures Normalizes(NoEntities, Nobody)
  {
    HoldsNone(ApplicationKey); HoldsNone(SectionKey); HoldsNone(RowKey);
    HoldsNone(ColumnKey); HoldsNone(InputKey);
  }

  lemma OneApplication(x: Application)
    ensures Normalizes(NoEntities.(applications := map[x.id := x]), Nobody.(applications := [x]))
  {
    NothingNormalizes();
    HoldsOne(x, ApplicationKey);
  }

  lemma OneSection(x: Section)
    ensures Normalizes(NoEntities.(sections := map[x.id := x]), Nobody.(sections := [x]))
  {
    NothingNormalizes();
    HoldsOne(x, SectionKey);
  }

  lemma OneRow(x: Row)
    ensures Normalizes(NoEntities.(rows := map[x.id := x]), Nobody.(rows := [x]))
  {
    NothingNormalizes();
    HoldsOne(x, RowKey);
  }

  lemma OneColumn(x: Column)
    ensures Normalizes(NoEntities.(columns := map[x.id := x]), Nobody.(columns := [x]))
  {
    NothingNormalizes();
    HoldsOne(x, ColumnKey);
  }

  lemma OneInput(x: Input)
    ensures Normalizes(NoEntities.(inputs := map[x.id := x]), Nobody.(inputs := [x]))
  {
    NothingNormalizes();
    HoldsOne(x, InputKey);
  }

  lemma ColumnNormalizes(c: ColumnNode)
    ensures Normalizes(NormalizeColumn(c).entities, ColumnCensus(c))
  {
    var own := NoEntities.(columns := map[c.id := FlatColumn(c)]);
    OneColumn(FlatColumn(c));
    match c.input
    case None =>
      NothingNormalizes();
      NormalizesJoin(NoEntities, Nobody, own, Nobody.(columns := [FlatColumn(c)]));
    case Some(i) =>
      OneInput(i);
      NormalizesJoin(NoEntities.(inputs := map[i.id := i]), Nobody.(inputs := [i]),
                     own, Nobody.(columns := [FlatColumn(c)]));
  }

  lemma {:induction false} ColumnsNormalize(cs: seq<ColumnNode>)
    ensures Normalizes(NormalizeColumns(cs).entities, ColumnsCensus(cs))
  {
    if cs == [] {
      NothingNormalizes();
    } else {
      ColumnNormalizes(cs[0]);
      ColumnsNormalize(cs[1..]);
      NormalizesJoin(NormalizeColumn(cs[0]).entities, ColumnCensus(cs[0]),
                     NormalizeColumns(cs[1..]).entities, ColumnsCensus(cs[1..]));
    }
  }

  lemma RowNormalizes(r: RowNode)
    ensures Normalizes(NormalizeRow(r).entities, RowCensus(r))
  {
    var own := NoEntities.(rows := map[r.id := FlatRow(r)]);
    OneRow(FlatRow(r));
    match r.columns
    case None =>
      NothingNormalizes();
      NormalizesJoin(NoEntities, Nobody, own, Nobody.(rows := [FlatRow(r)]));
    case Some(cs) =>
      ColumnsNormalize(cs);
      NormalizesJoin(NormalizeColumns(cs).entities, ColumnsCensus(cs), own, Nobody.(rows := [FlatRow(r)]));
  }

  lemma {:induction false} RowsNormalize(rs: seq<RowNode>)
    ensures Normalizes(NormalizeRows(rs).entities, RowsCensus(rs))
  {
    if rs == [] {
      NothingNormalizes();
    } else {
      RowNormalizes(rs[0]);
      RowsNormalize(rs[1..]);
      NormalizesJoin(NormalizeRow(rs[0]).entities, RowCensus(rs[0]),
                     NormalizeRows(rs[1..]).entities, RowsCensus(rs[1..]));
    }
  }

  lemma SectionRowsNormalize(rows: Option<seq<RowNode>>)
    ensures Normalizes(NormalizeSectionRows(rows).entities, SectionRowsCensus(rows))
    ensures NormalizeSectionRows(rows).result == if rows.Some? then Some(RowIds(rows.value)) else None
  {
    if rows.Some? {
      RowsNormalize(rows.value);
    } else {
      NothingNormalizes();
    }
  }

  lemma SectionNormalizes(s: SectionNode)
    ensures Normalizes(NormalizeSection(s).entities, SectionCensus(s))
  {
    SectionRowsNormalize(s.rows);
    var own := NoEntities.(sections := map[s.id := FlatSection(s, None)]);
    OneSection(FlatSection(s, None));
    NormalizesJoin(NormalizeSectionRows(s.rows).entities, SectionRowsCensus(s.rows),
                   own, Nobody.(sections := [FlatSection(s, None)]));
  }

  lemma {:induction false} SectionsNormalize(ss: seq<SectionNode>)
    ensures Normalizes(NormalizeSections(ss).entities, SectionsCensus(ss))
  {
    if ss == [] {
      NothingNormalizes();
    } else {
      SectionNormalizes(ss[0]);
      SectionsNormalize(ss[1..]);
      NormalizesJoin(NormalizeSection(ss[0]).entities, SectionCensus(ss[0]),
                     NormalizeSections(ss[1..]).entities, SectionsCensus(ss[1..]));
    }
  }

  /** ApplicationSchema: the tables hold exactly the flat records of the
      payload's entities (keys always; the records themselves when ids are
      unique per type). */
  lemma ApplicationNormalizes(a: ApplicationNode)
    ensures KeyedBy(NormalizeApplication(a).entities, ApplicationCensus(a))
    ensures Distinct(ApplicationCensus(a)) ==>
              StoredIn(NormalizeApplication(a).entities, ApplicationCensus(a))
  {
    var own := NoEntities.(applications := map[a.id := FlatApplication(a)]);
    OneApplication(FlatApplication(a));
    match a.sections
    case None =>
      NothingNormalizes();
      NormalizesJoin(NoEntities, Nobody, own, Nobody.(applications := [FlatApplication(a)]));
    case Some(ss) =>
      SectionsNormalize(ss);
      NormalizesJoin(NormalizeSections(ss).entities, SectionsCensus(ss),
                     own, Nobody.(applications := [FlatApplication(a)]));
  }

  /** SectionSchema: the same, for a section fetched with its application. */
  lemma SectionTreeNormalizes(t: SectionTree)
    ensures KeyedBy(NormalizeSectionTree(t).entities, SectionTreeCensus(t))
    ensures Distinct(SectionTreeCensus(t)) ==>
              StoredIn(NormalizeSectionTree(t).entities, SectionTreeCensus(t))
  {
    var s := t.section;
    SectionRowsNormalize(s.rows);
    var appCensus := if t.application.Some? then Nobody.(applications := [t.application.value]) else Nobody;
    var app := NormalizeSibling(t.application);
    if t.application.Some? {
      OneApplication(t.application.value);
    } else {
      NothingNormalizes();
    }
    NormalizesJoin(NormalizeSectionRows(s.rows).entities, SectionRowsCensus(s.rows), app.entities, appCensus);
    var own := NoEntities.(sections := map[s.id := FlatSection(s, t.application)]);
    OneSection(FlatSection(s, t.application));
    NormalizesJoin(Merge(NormalizeSectionRows(s.rows).entities, app.entities),
                   Join(SectionRowsCensus(s.rows), appCensus),
                   own, Nobody.(sections := [FlatSection(s, t.application)]));
  }

  // ---------------------------------------------------------------------
  // The root record of each schema
  // ---------------------------------------------------------------------

  lemma NoTable<R>(table: map<Id, R>, key: R -> Id)
    requires Keyed(table, [], key)
    ensures table == map[]
  {
  }

  /** Nothing below an application is an application. */
  lemma SectionsOnlyBelow(ss: seq<SectionNode>)
    ensures NormalizeSections(ss).entities.applications == map[]
    ensures NormalizeSections(ss).result == SectionIds(ss)
  {
    SectionsNormalize(ss);
    NoTable(NormalizeSections(ss).entities.applications, ApplicationKey);
  }

  /** Under ApplicationSchema the result is the payload's id and the
      `applications` table holds the root application alone. */
  lemma ApplicationRoot(a: ApplicationNode)
    ensures NormalizeApplication(a).result == a.id
    ensures NormalizeApplication(a).entities.applications == map[a.id := FlatApplication(a)]
  {
    if a.sections.Some? {
      SectionsOnlyBelow(a.sections.value);
    }
  }

  lemma SectionRowsOnlyBelow(rows: Option<seq<RowNode>>)
    ensures NormalizeSectionRows(rows).entities.sections == map[]
    ensures NormalizeSectionRows(rows).entities.applications == map[]
    ensures NormalizeSectionRows(rows).result == if rows.Some? then Some(RowIds(rows.value)) else None
  {
    SectionRowsNormalize(rows);
    NoTable(NormalizeSectionRows(rows).entities.sections, SectionKey);
    NoTable(NormalizeSectionRows(rows).entities.applications, ApplicationKey);
  }

  /** The section added last is the only one, when nothing below it is a
      section. */
  lemma AttachSectionTables(s: SectionNode, rows: Normalized<Option<seq<Id>>>,
                            application: Normalized<Option<Id>>)
    requires rows.entities.sections == map[] && application.entities.sections == map[]
    ensures AttachSection(s, rows, application).entities.sections ==
              map[s.id := Section(s.id, s.applicationId, s.title, s.details, s.numOfCols,
                                  rows.result, application.result)]
    ensures AttachSection(s, rows, application).entities.applications ==
              rows.entities.applications + application.entities.applications
  {
  }

  /** Under SectionSchema the result is the section's id, the `sections`
      table holds that section alone with its application replaced by the
      application's id (a single id, not a list), and the `applications`
      table holds that application exactly as it came. */
  lemma SectionTreeRoot(t: SectionTree)
    ensures NormalizeSectionTree(t).result == t.section.id
    ensures NormalizeSectionTree(t).entities.sections == map[t.section.id := FlatSection(t.section, t.application)]
    ensures NormalizeSectionTree(t).entities.applications ==
              if t.application.Some? then map[t.application.value.id := t.application.value] else map[]
  {
    var rows := NormalizeSectionRows(t.section.rows);
    SectionRowsOnlyBelow(t.section.rows);
    var app := NormalizeSibling(t.application);
    assert app.entities.sections == map[];
    AttachSectionTables(t.section, rows, app);
  }

  /** Nothing below a row is a row. */
  lemma ColumnsOnlyBelow(cs: seq<ColumnNode>)
    ensures NormalizeColumns(cs).entities.rows == map[]
    ensures NormalizeColumns(cs).entities.sections == map[]
    ensures NormalizeColumns(cs).entities.applications == map[]
  {
    var e := NormalizeColumns(cs).entities;
    ColumnsNormalize(cs);
    NoTable(e.rows, RowKey);
    NoTable(e.sections, SectionKey);
    NoTable(e.applications, ApplicationKey);
  }

  /** Under RowSchema the result is the row's id and the `rows` table holds
      that row alone. */
  lemma RowRoot(r: RowNode)
    ensures NormalizeRow(r).result == r.id
    ensures NormalizeRow(r).entities.rows == map[r.id := FlatRow(r)]
  {
    if r.columns.Some? {
      ColumnsOnlyBelow(r.columns.value);
    }
  }

  /** The engine writes only into the tables the declarations name: a row
      fetched on its own never creates an `applications` or `sections`
      table, and always creates `rows`. */
  lemma RowSchemaTables(r: RowNode)
    ensures "rows" in EntityKeys(NormalizeRow(r).entities)
    ensures EntityKeys(NormalizeRow(r).entities) <= TableNames(RowSchema)
  {
    RootSchemasShareTables();
    var e := NormalizeRow(r).entities;
    if r.columns.Some? {
      ColumnsOnlyBelow(r.columns.value);
    }
    assert e.applications == map[] && e.sections == map[];
    assert r.id in e.rows;
  }

  /** A table with an entry is present on the `entities` object. */
  lemma PresentTables(e: Entities)
    ensures EntityKeys(e) <= AllTables
    ensures "applications" in EntityKeys(e) <==> e.applications != map[]
    ensures "sections" in EntityKeys(e) <==> e.sections != map[]
  {
  }

  lemma ApplicationSectionsTable(a: ApplicationNode)
    ensures NormalizeApplication(a).entities.sections == map[] <==> !(a.sections.Some? && a.sections.value != [])
  {
    var e := NormalizeApplication(a).entities;
    if a.sections.Some? && a.sections.value != [] {
      var ss := a.sections.value;
      SectionsTable(ss);
      var k :| k in NormalizeSections(ss).entities.sections;
      assert k in e.sections;
    } else {
      assert e.sections.Keys == {};
    }
  }

  /** A section array creates the `sections` table exactly when it has an
      element. */
  lemma SectionsTable(ss: seq<SectionNode>)
    ensures NormalizeSections(ss).entities.sections == map[] <==> ss == []
  {
    if ss != [] {
      assert ss[0].id in NormalizeSection(ss[0]).entities.sections;
      assert ss[0].id in NormalizeSections(ss).entities.sections;
    }
  }

  /** The same for the two other roots, which always create their own table. */
  lemma ApplicationSchemaTables(a: ApplicationNode)
    ensures "applications" in EntityKeys(NormalizeApplication(a).entities)
    ensures EntityKeys(NormalizeApplication(a).entities) <= TableNames(ApplicationSchema)
    ensures "sections" in EntityKeys(NormalizeApplication(a).entities) <==> a.sections.Some? && a.sections.value != []
  {
    RootSchemasShareTables();
    var e := NormalizeApplication(a).entities;
    ApplicationRoot(a);
    assert a.id in e.applications;
    ApplicationSectionsTable(a);
    PresentTables(e);
  }

  lemma SectionSchemaTables(t: SectionTree)
    ensures "sections" in EntityKeys(NormalizeSectionTree(t).entities)
    ensures EntityKeys(NormalizeSectionTree(t).entities) <= TableNames(SectionSchema)
    ensures "applications" in EntityKeys(NormalizeSectionTree(t).entities) <==> t.application.Some?
  {
    RootSchemasShareTables();
    var e := NormalizeSectionTree(t).entities;
    SectionTreeRoot(t);
    assert t.section.id in e.sections;
    if t.application.Some? {
      assert t.application.value.id in e.applications;
    }
    PresentTables(e);
  }

  // ---------------------------------------------------------------------
  // The inverse: rebuilding a payload from the tables
  // ---------------------------------------------------------------------

  function DenormalizeColumn(e: Entities, id: Id): Option<ColumnNode>
  {
    if id !in e.columns then None
    else
      var c := e.columns[id];
      match c.input
      case None => Some(ColumnNode(c.id, c.rowId, c.sectionId, None))
      case Some(i) =>
        if i in e.inputs then Some(ColumnNode(c.id, c.rowId, c.sectionId, Some(e.inputs[i]))) else None
  }

  function DenormalizeColumns(e: Entities, ids: seq<Id>): Option<seq<ColumnNode>>
  {
    if ids == [] then Some([])
    else
      match (DenormalizeColumn(e, ids[0]), DenormalizeColumns(e, ids[1..]))
      case (Some(c), Some(cs)) => Some([c] + cs)
      case _ => None
  }

  function DenormalizeRow(e: Entities, id: Id): Option<RowNode>
  {
    if id !in e.rows then None
    else
      var r := e.rows[id];
      match r.columns
      case None => Some(RowNode(r.id, r.sectionId, r.numOfCols, None))
      case Some(ids) =>
        match DenormalizeColumns(e, ids)
        case None => None
        case Some(cs) => Some(RowNode(r.id, r.sectionId, r.numOfCols, Some(cs)))
  }

  function DenormalizeRows(e: Entities, ids: seq<Id>): Option<seq<RowNode>>
  {
    if ids == [] then Some([])
    else
      match (DenormalizeRow(e, ids[0]), DenormalizeRows(e, ids[1..]))
      case (Some(r), Some(rs)) => Some([r] + rs)
      case _ => None
  }

  /** A section's `rows` field rebuilt: `Some(None)` when the field was
      absent, `None` when a row is missing from the tables. */
  function DenormalizeSectionRows(e: Entities, ids: Option<seq<Id>>): Option<Option<seq<RowNode>>>
  {
    match ids
    case None => Some(None)
    case Some(rowIds) =>
      match DenormalizeRows(e, rowIds)
      case None => None
      case Some(rs) => Some(Some(rs))
  }

  function DenormalizeSection(e: Entities, id: Id): Option<SectionNode>
  {
    if id !in e.sections then None
    else
      var s := e.sections[id];
      match DenormalizeSectionRows(e, s.rows)
      case None => None
      case Some(rows) => Some(SectionNode(s.id, s.applicationId, s.title, s.details, s.numOfCols, rows))
  }

  function DenormalizeSections(e: Entities, ids: seq<Id>): Option<seq<SectionNode>>
  {
    if ids == [] then Some([])
    else
      match (DenormalizeSection(e, ids[0]), DenormalizeSections(e, ids[1..]))
      case (Some(s), Some(ss)) => Some([s] + ss)
      case _ => None
  }

  function DenormalizeApplication(e: Entities, id: Id): Option<ApplicationNode>
  {
    if id !in e.applications then None
    else
      var a := e.applications[id];
      match a.sections
      case None => Some(ApplicationNode(a.id, a.title, a.details, None))
      case Some(ids) =>
        match DenormalizeSections(e, ids)
        case None => None
        case Some(ss) => Some(ApplicationNode(a.id, a.title, a.details, Some(ss)))
  }

  function DenormalizeSectionTree(e: Entities, id: Id): Option<SectionTree>
  {
    match DenormalizeSection(e, id)
    case None => None
    case Some(s) =>
      match e.sections[id].application
      case None => Some(SectionTree(s, None))
      case Some(a) => if a in e.applications then Some(SectionTree(s, Some(e.applications[a]))) else None
  }

  lemma StoredInJoin(e: Entities, a: Census, b: Census)
    requires StoredIn(e, Join(a, b))
    ensures StoredIn(e, a) && StoredIn(e, b)
  {
  }

  lemma ColumnRoundTrip(e: Entities, c: ColumnNode)
    requires StoredIn(e, ColumnCensus(c))
    ensures DenormalizeColumn(e, c.id) == Some(c)
  {
    assert FlatColumn(c) in ColumnCensus(c).columns;
    if c.input.Some? {
      assert c.input.value in ColumnCensus(c).inputs;
    }
  }

  lemma {:induction false} ColumnsRoundTrip(e: Entities, cs: seq<ColumnNode>)
    requires StoredIn(e, ColumnsCensus(cs))
    ensures DenormalizeColumns(e, ColumnIds(cs)) == Some(cs)
  {
    if cs != [] {
      StoredInJoin(e, ColumnCensus(cs[0]), ColumnsCensus(cs[1..]));
      ColumnRoundTrip(e, cs[0]);
      ColumnsRoundTrip(e, cs[1..]);
      assert ColumnIds(cs)[1..] == ColumnIds(cs[1..]);
      assert cs == [cs[0]] + cs[1..];
    }
  }

  lemma RowRoundTrip(e: Entities, r: RowNode)
    requires StoredIn(e, RowCensus(r))
    ensures DenormalizeRow(e, r.id) == Some(r)
  {
    assert FlatRow(r) in RowCensus(r).rows;
    if r.columns.Some? {
      StoredInJoin(e, ColumnsCensus(r.columns.value), Nobody.(rows := [FlatRow(r)]));
      ColumnsRoundTrip(e, r.columns.value);
    }
  }

  lemma {:induction false} RowsRoundTrip(e: Entities, rs: seq<RowNode>)
    requires StoredIn(e, RowsCensus(rs))
    ensures DenormalizeRows(e, RowIds(rs)) == Some(rs)
  {
    if rs != [] {
      StoredInJoin(e, RowCensus(rs[0]), RowsCensus(rs[1..]));
      RowRoundTrip(e, rs[0]);
      RowsRoundTrip(e, rs[1..]);
      assert RowIds(rs)[1..] == RowIds(rs[1..]);
      assert rs == [rs[0]] + rs[1..];
    }
  }

  lemma SectionRoundTrip(e: Entities, s: SectionNode, application: Option<Application>)
    requires StoredIn(e, SectionRowsCensus(s.rows))
    requires s.id in e.sections && e.sections[s.id] == FlatSection(s, application)
    ensures DenormalizeSection(e, s.id) == Some(s)
  {
    if s.rows.Some? {
      RowsRoundTrip(e, s.rows.value);
    }
  }

  lemma {:induction false} SectionsRoundTrip(e: Entities, ss: seq<SectionNode>)
    requires StoredIn(e, SectionsCensus(ss))
    ensures DenormalizeSections(e, SectionIds(ss)) == Some(ss)
  {
    if ss != [] {
      StoredInJoin(e, SectionCensus(ss[0]), SectionsCensus(ss[1..]));
      var head := ss[0];
      StoredInJoin(e, SectionRowsCensus(head.rows), Nobody.(sections := [FlatSection(head, None)]));
      assert FlatSection(head, None) in SectionCensus(head).sections;
      SectionRoundTrip(e, head, None);
      SectionsRoundTrip(e, ss[1..]);
      assert SectionIds(ss)[1..] == SectionIds(ss[1..]);
      assert ss == [ss[0]] + ss[1..];
    }
  }

  /** Normalizing an application and denormalizing its result gives the
      payload back: every nested object and every array, in its order, is
      recoverable from the ids and the tables. */
  lemma ApplicationRoundTrip(a: ApplicationNode)
    requires Distinct(ApplicationCensus(a))
    ensures DenormalizeApplication(NormalizeApplication(a).entities, NormalizeApplication(a).result) == Some(a)
  {
    var e := NormalizeApplication(a).entities;
    ApplicationNormalizes(a);
    ApplicationRoot(a);
    if a.sections.Some? {
      StoredInJoin(e, SectionsCensus(a.sections.value), Nobody.(applications := [FlatApplication(a)]));
      SectionsRoundTrip(e, a.sections.value);
    }
  }

  /** The same for a section fetched with its application. */
  lemma SectionTreeRoundTrip(t: SectionTree)
    requires Distinct(SectionTreeCensus(t))
    ensures DenormalizeSectionTree(NormalizeSectionTree(t).entities, NormalizeSectionTree(t).result) == Some(t)
  {
    var e := NormalizeSectionTree(t).entities;
    SectionTreeNormalizes(t);
    SectionTreeRoot(t);
    var appCensus := if t.application.Some? then Nobody.(applications := [t.application.value]) else Nobody;
    StoredInJoin(e, Join(SectionRowsCensus(t.section.rows), appCensus),
                 Nobody.(sections := [FlatSection(t.section, t.application)]));
    StoredInJoin(e, SectionRowsCensus(t.section.rows), appCensus);
    SectionRoundTrip(e, t.section, t.application);
  }

  /** The same for a row fetched on its own. */
  lemma RowTreeRoundTrip(r: RowNode)
    requires Distinct(RowCensus(r))
    ensures DenormalizeRow(NormalizeRow(r).entities, NormalizeRow(r).result) == Some(r)
  {
    RowNormalizes(r);
    RowRoot(r);
    RowRoundTrip(NormalizeRow(r).entities, r);
  }

  // ---------------------------------------------------------------------
  // A row normalizes the same way at the root and nested
  // ---------------------------------------------------------------------

  /** Every record of `a` also occurs in `b`. */
  ghost predicate Part(a: Census, b: Census)
  {
    && (forall x :: x in a.applications ==> x in b.applications)
    && (forall x :: x in a.sections ==> x in b.sections)
    && (forall x :: x in a.rows ==> x in b.rows)
    && (forall x :: x in a.columns ==> x in b.columns)
    && (forall x :: x in a.inputs ==> x in b.inputs)
  }

  /** Every table of `small` agrees with `big` on the ids it holds. */
  ghost predicate Within(small: Entities, big: Entities)
  {
    && (forall k :: k in small.applications ==> k in big.applications && big.applications[k] == small.applications[k])
    && (forall k :: k in small.sections ==> k in big.sections && big.sections[k] == small.sections[k])
    && (forall k :: k in small.rows ==> k in big.rows && big.rows[k] == small.rows[k])
    && (forall k :: k in small.columns ==> k in big.columns && big.columns[k] == small.columns[k])
    && (forall k :: k in small.inputs ==> k in big.inputs && big.inputs[k] == small.inputs[k])
  }

  lemma {:induction false} RowAmongRows(rs: seq<RowNode>, r: RowNode)
    requires r in rs
    ensures Part(RowCensus(r), RowsCensus(rs))
    ensures Distinct(RowsCensus(rs)) ==> Distinct(RowCensus(r))
  {
    if Distinct(RowsCensus(rs)) {
      DistinctJoin(RowCensus(rs[0]), RowsCensus(rs[1..]));
    }
    if r != rs[0] {
      RowAmongRows(rs[1..], r);
    }
  }

  lemma {:induction false} SectionAmongSections(ss: seq<SectionNode>, s: SectionNode)
    requires s in ss
    ensures Part(SectionCensus(s), SectionsCensus(ss))
    ensures Distinct(SectionsCensus(ss)) ==> Distinct(SectionCensus(s))
  {
    if Distinct(SectionsCensus(ss)) {
      DistinctJoin(SectionCensus(ss[0]), SectionsCensus(ss[1..]));
    }
    if s != ss[0] {
      SectionAmongSections(ss[1..], s);
    }
  }

  /** A row inside an application payload contributes to the application's
      tables exactly the records RowSchema gives it when it is normalized on
      its own (as after creating a row). */
  lemma NestedRowAsRoot(a: ApplicationNode, s: SectionNode, r: RowNode)
    requires a.sections.Some? && s in a.sections.value
    requires s.rows.Some? && r in s.rows.value
    requires Distinct(ApplicationCensus(a))
    ensures Within(NormalizeRow(r).entities, NormalizeApplication(a).entities)
  {
    var ss, rs := a.sections.value, s.rows.value;
    DistinctJoin(SectionsCensus(ss), Nobody.(applications := [FlatApplication(a)]));
    SectionAmongSections(ss, s);
    DistinctJoin(RowsCensus(rs), Nobody.(sections := [FlatSection(s, None)]));
    RowAmongRows(rs, r);
    var small, big := NormalizeRow(r).entities, NormalizeApplication(a).entities;
    var cr, ca := RowCensus(r), ApplicationCensus(a);
    assert Part(cr, ca);
    RowNormalizes(r);
    ApplicationNormalizes(a);
    HoldsWithin(small.applications, cr.applications, big.applications, ca.applications, ApplicationKey);
    HoldsWithin(small.sections, cr.sections, big.sections, ca.sections, SectionKey);
    HoldsWithin(small.rows, cr.rows, big.rows, ca.rows, RowKey);
    HoldsWithin(small.columns, cr.columns, big.columns, ca.columns, ColumnKey);
    HoldsWithin(small.inputs, cr.inputs, big.inputs, ca.inputs, InputKey);
  }
}
