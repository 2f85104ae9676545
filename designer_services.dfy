/** The application designer's thunks (src/features/applications/services.ts).

    The three fetches normalize the payload and hand every table back as a
    list; the mutations compare the response status with 200 and settle with
    the response data, with a value taken from their argument, or with their
    own fixed error message.
 */
module DesignerServices {
  import opened Shapes
  import opened Tables
  import opened Thunks
  import opened Schemas

  // ---- messages ----

  const LoadFailed := "Failed to load application."
  const CreateApplicationFailed := "Failed to create application."
  const UpdateApplicationFailed := "Failed to update application."
  const DeleteApplicationFailed := "Failed to delete application."
  const CreateSectionFailed := "Failed to create section."
  const UpdateSectionFailed := "Failed to update section."
  const DeleteSectionFailed := "Failed to delete section."
  const CreateRowFailed := "Failed to create row."
  const UpdateRowFailed := "Failed to update row."
  const DeleteRowFailed := "Failed to delete row."
  const DeleteColumnFailed := "Failed to delete column."
  const CreateInputFailed := "Failed to add input"
  const DeleteInputFailed := "Failed to delete input"
  const PublishFailed := "Failed to publish application."
  const CreateColumnFailed := "Failed to add column to row"

  /** The messages of the status-checked thunks, in source order. */
  const MutationMessages := [
    CreateApplicationFailed, UpdateApplicationFailed, DeleteApplicationFailed,
    CreateSectionFailed, UpdateSectionFailed, DeleteSectionFailed,
    CreateRowFailed, UpdateRowFailed, DeleteRowFailed, DeleteColumnFailed,
    CreateInputFailed, DeleteInputFailed, PublishFailed, CreateColumnFailed]

  // ---- results ----

  /** What the application fetches return. The interface calls the last
      list `elements`; the code fills a field named `inputs`. The
      application is whatever the `applications` table holds under the key
      looked up, so it may be `undefined`. */
  datatype ApplicationWithChildren = ApplicationWithChildren(
    application: Option<Application>, sections: seq<Section>, rows: seq<Row>,
    columns: seq<Column>, inputs: seq<Input>)

  /** What the section fetch returns; it carries an `inputs` list that the
      interface does not declare. */
  datatype SectionWithChildren = SectionWithChildren(
    section: Section, rows: seq<Row>, columns: seq<Column>, inputs: seq<Input>,
    application: Option<Application>)

  datatype RowWithChildren = RowWithChildren(row: Row, columns: seq<Column>)

  /** The body `CreateRow` posts: its attributes under the key `row`. */
  datatype RowEnvelope = RowEnvelope(row: CreateRowAttributes)

  /** How a status-checked thunk settles on `response`: fulfilled exactly on
      a resolved status 200, rejected with `message` (and no status) on any
      other resolved status, and thrown when the call itself was rejected. */
  ghost predicate SettlesOn200<D, T>(o: Outcome<T>, response: Response<D>, message: string)
  {
    && (o.Fulfilled? <==> response.Received? && response.status == 200)
    && (o.Rejected? <==> response.Received? && response.status != 200)
    && (o.Rejected? ==> o.error == ErrorMessage(message, None))
    && (o.Thrown? <==> !response.Received?)
  }

  // ---------------------------------------------------------------------
  // Fetches
  // ---------------------------------------------------------------------

  /** GetApplications: no status check and no catch. */
  function GetApplications(response: Response<seq<Application>>): (c: Call<(), seq<Application>>)
    ensures c.request == Request(Get, "admin/applications", None)
    ensures c.outcome.Fulfilled? <==> response.Received?
    ensures c.outcome.Fulfilled? ==> c.outcome.value == response.data
    ensures !c.outcome.Rejected?
  {
    Call(
      Request(Get, "admin/applications", None),
      match response
      case Received(_, data) => Fulfilled(data)
      case _ => Thrown)
  }

  /** The record under `applicationId` and every table as a list (an absent
      table as the empty list). */
  ghost function ApplicationData(e: Entities, applicationId: Id): (d: ApplicationWithChildren)
    ensures d.application.Some? <==> applicationId in e.applications
    ensures d.application.Some? ==> d.application.value == e.applications[applicationId]
    ensures |d.sections| == |e.sections| && forall x :: x in d.sections <==> x in e.sections.Values
    ensures |d.rows| == |e.rows| && forall x :: x in d.rows <==> x in e.rows.Values
    ensures |d.columns| == |e.columns| && forall x :: x in d.columns <==> x in e.columns.Values
    ensures |d.inputs| == |e.inputs| && forall x :: x in d.inputs <==> x in e.inputs.Values
  {
    ListOfField(e.sections);
    ListOfField(e.rows);
    ListOfField(e.columns);
    ListOfField(e.inputs);
    ApplicationWithChildren(
      Lookup(e.applications, applicationId), ListOf(Field(e.sections)), ListOf(Field(e.rows)),
      ListOf(Field(e.columns)), ListOf(Field(e.inputs)))
  }

  /** The catch of both designer fetches: the upstream status goes into the
      error message, and an error without a response makes the catch itself
      throw when it reads `error.response.status`. */
  function LoadFailure<T, D>(response: Response<D>): (o: Outcome<T>)
    requires !response.Received?
    ensures response.ErrorStatus? <==> o.Rejected?
    ensures response.NoResponse? ==> o.Thrown?
    ensures o.Rejected? ==> o.error.message == "Failed to load application." && o.error.status == Some(response.status)
  {
    match response
    case ErrorStatus(status) => Rejected(ErrorMessage(LoadFailed, Some(status)))
    case NoResponse => Thrown
  }

  /** GetApplication (admin): the application is looked up under the
      payload's own id; the slug only names the resource. */
  ghost function GetApplication(slug: string, response: Response<ApplicationNode>): (c: Call<(), ApplicationWithChildren>)
    ensures c.request == Request(Get, "admin/applications/" + slug, None)
    ensures c.outcome.Fulfilled? <==> response.Received?
    ensures c.outcome.Rejected? <==> response.ErrorStatus?
    ensures c.outcome.Rejected? ==> c.outcome.error == ErrorMessage("Failed to load application.", Some(response.status))
    ensures response.NoResponse? ==> c.outcome.Thrown?
  {
    Call(
      Request(Get, "admin/applications/" + slug, None),
      match response
      case Received(_, data) => Fulfilled(ApplicationData(NormalizeApplication(data).entities, data.id))
      case _ => LoadFailure(response))
  }

  /** GetSection: the section is looked up under the requested id and the
      application under the section's `application` reference. Reading a
      property of a missing section, or indexing an `applications` table
      that was never created, throws inside the try; the catch then reads
      `error.response.status` of an error that has no response, and throws
      again. */
  ghost function GetSection(id: Id, response: Response<SectionTree>): (c: Call<(), SectionWithChildren>)
    ensures c.request == Request(Get, "admin/sections/" + id, None)
    ensures c.outcome.Rejected? <==> response.ErrorStatus?
    ensures c.outcome.Rejected? ==> c.outcome.error == ErrorMessage("Failed to load application.", Some(response.status))
    ensures c.outcome.Fulfilled? ==> response.Received?
    ensures response.NoResponse? ==> c.outcome.Thrown?
  {
    Call(
      Request(Get, "admin/sections/" + id, None),
      match response
      case Received(_, data) =>
        var e := NormalizeSectionTree(data).entities;
        (match Lookup(e.sections, id)
         case None => Thrown
         case Some(section) =>
           if e.applications == map[] then Thrown
           else
             // an absent reference indexes the table with the key "undefined"
             var reference := if section.application.Some? then section.application.value else "undefined";
             Fulfilled(SectionWithChildren(
               section, ListOf(Field(e.rows)), ListOf(Field(e.columns)), ListOf(Field(e.inputs)),
               Lookup(e.applications, reference))))
      case _ => LoadFailure(response))
  }

  // ---------------------------------------------------------------------
  // Mutations
  // ---------------------------------------------------------------------

  function CreateApplication(attributes: CreateApplicationAttributes, response: Response<Application>)
    : (c: Call<CreateApplicationAttributes, Application>)
    ensures c.request == Request(Post, "admin/applications", Some(attributes))
    ensures SettlesOn200(c.outcome, response, "Failed to create application.")
    ensures c.outcome.Fulfilled? ==> c.outcome.value == response.data
  {
    Call(Request(Post, "admin/applications", Some(attributes)), StatusChecked(response, CreateApplicationFailed))
  }

  /** UpdateApplication: the record is sent to the path of its own id. */
  function UpdateApplication(application: Application, response: Response<Application>)
    : (c: Call<Application, Application>)
    ensures c.request == Request(Put, "admin/applications/" + application.id, Some(application))
    ensures SettlesOn200(c.outcome, response, "Failed to update application.")
    ensures c.outcome.Fulfilled? ==> c.outcome.value == response.data
  {
    Call(
      Request(Put, "admin/applications/" + application.id, Some(application)),
      StatusChecked(response, UpdateApplicationFailed))
  }

  function DeleteApplication<D>(applicationId: int, response: Response<D>): (c: Call<(), int>)
    ensures c.request == Request(Delete, "admin/applications/" + NumberText(applicationId), None)
    ensures SettlesOn200(c.outcome, response, "Failed to delete application.")
    ensures c.outcome.Fulfilled? ==> c.outcome.value == applicationId
  {
    Call(
      Request(Delete, "admin/applications/" + NumberText(applicationId), None),
      Echo(response, DeleteApplicationFailed, applicationId))
  }

  function CreateSection(section: CreateSectionAttributes, response: Response<Section>)
    : (c: Call<CreateSectionAttributes, Section>)
    ensures c.request == Request(Post, "admin/sections", Some(section))
    ensures SettlesOn200(c.outcome, response, "Failed to create section.")
    ensures c.outcome.Fulfilled? ==> c.outcome.value == response.data
  {
    Call(Request(Post, "admin/sections", Some(section)), StatusChecked(response, CreateSectionFailed))
  }

  function UpdateSection(section: Section, response: Response<Section>): (c: Call<Section, Section>)
    ensures c.request == Request(Put, "admin/sections/" + section.id, Some(section))
    ensures SettlesOn200(c.outcome, response, "Failed to update section.")
    ensures c.outcome.Fulfilled? ==> c.outcome.value == response.data
  {
    Call(Request(Put, "admin/sections/" + section.id, Some(section)), StatusChecked(response, UpdateSectionFailed))
  }

  function DeleteSection<D>(sectionId: int, response: Response<D>): (c: Call<(), int>)
    ensures c.request == Request(Delete, "admin/sections/" + NumberText(sectionId), None)
    ensures SettlesOn200(c.outcome, response, "Failed to delete section.")
    ensures c.outcome.Fulfilled? ==> c.outcome.value == sectionId
  {
    Call(
      Request(Delete, "admin/sections/" + NumberText(sectionId), None),
      Echo(response, DeleteSectionFailed, sectionId))
  }

  /** The single row of a table built under RowSchema: the entry under the
      first key `Object.keys` lists. With no table `Object.keys` throws. */
  ghost function FirstRow(rows: map<Id, Row>): (r: Option<Row>)
    ensures r.Some? ==> r.value in rows.Values
    ensures r.None? <==> rows == map[]
  {
    var ks := KeyList(rows);
    if ks == [] then None else Some(rows[ks[0]])
  }

  /** CreateRow: the attributes are posted wrapped as `{ row: ... }`; the
      response is normalized under RowSchema. */
  ghost function CreateRow(newRow: CreateRowAttributes, response: Response<RowNode>)
    : (c: Call<RowEnvelope, RowWithChildren>)
    ensures c.request == Request(Post, "admin/rows", Some(RowEnvelope(newRow)))
    ensures c.outcome.Rejected? <==> response.Received? && response.status != 200
    ensures c.outcome.Rejected? ==> c.outcome.error == ErrorMessage("Failed to create row.", None)
    ensures c.outcome.Fulfilled? ==> response.Received? && response.status == 200
  {
    Call(
      Request(Post, "admin/rows", Some(RowEnvelope(newRow))),
      match StatusChecked(response, CreateRowFailed)
      case Fulfilled(data) =>
        var e := NormalizeRow(data).entities;
        (match FirstRow(e.rows)
         case None => Thrown
         case Some(row) => Fulfilled(RowWithChildren(row, ListOf(Field(e.columns)))))
      case Rejected(error) => Rejected(error)
      case Thrown => Thrown)
  }

  function UpdateRow(row: Row, response: Response<Row>): (c: Call<Row, Row>)
    ensures c.request == Request(Put, "admin/rows/" + row.id, Some(row))
    ensures SettlesOn200(c.outcome, response, "Failed to update row.")
    ensures c.outcome.Fulfilled? ==> c.outcome.value == response.data
  {
    Call(Request(Put, "admin/rows/" + row.id, Some(row)), StatusChecked(response, UpdateRowFailed))
  }

  function DeleteRow<D>(rowId: int, response: Response<D>): (c: Call<(), int>)
    ensures c.request == Request(Delete, "admin/rows/" + NumberText(rowId), None)
    ensures SettlesOn200(c.outcome, response, "Failed to delete row.")
    ensures c.outcome.Fulfilled? ==> c.outcome.value == rowId
  {
    Call(Request(Delete, "admin/rows/" + NumberText(rowId), None), Echo(response, DeleteRowFailed, rowId))
  }

  /** DeleteColumn: the result is built from the argument, not the response. */
  function DeleteColumn<D>(column: Column, response: Response<D>): (c: Call<(), DeleteColumnResult>)
    ensures c.request == Request(Delete, "admin/columns/" + column.id, None)
    ensures SettlesOn200(c.outcome, response, "Failed to delete column.")
    ensures c.outcome.Fulfilled? ==> c.outcome.value.columnId == column.id && c.outcome.value.rowId == column.rowId
  {
    Call(
      Request(Delete, "admin/columns/" + column.id, None),
      Echo(response, DeleteColumnFailed, DeleteColumnResult(column.id, column.rowId)))
  }

  function CreateInput<A>(input: A, response: Response<Input>): (c: Call<A, Input>)
    ensures c.request == Request(Post, "admin/inputs", Some(input))
    ensures SettlesOn200(c.outcome, response, "Failed to add input")
    ensures c.outcome.Fulfilled? ==> c.outcome.value == response.data
  {
    Call(Request(Post, "admin/inputs", Some(input)), StatusChecked(response, CreateInputFailed))
  }

  function DeleteInput<D>(inputId: Id, response: Response<D>): (c: Call<(), Id>)
    ensures c.request == Request(Delete, "admin/inputs/" + inputId, None)
    ensures SettlesOn200(c.outcome, response, "Failed to delete input")
    ensures c.outcome.Fulfilled? ==> c.outcome.value == inputId
  {
    Call(Request(Delete, "admin/inputs/" + inputId, None), Echo(response, DeleteInputFailed, inputId))
  }

  /** Publish: a bodiless PATCH to the application's path plus `/publish`. */
  function Publish<D>(applicationSlug: string, response: Response<D>): (c: Call<(), string>)
    ensures c.request == Request(Patch, "admin/applications/" + applicationSlug + "/publish", None)
    ensures SettlesOn200(c.outcome, response, "Failed to publish application.")
    ensures c.outcome.Fulfilled? ==> c.outcome.value == applicationSlug
  {
    Call(
      Request(Patch, "admin/applications/" + applicationSlug + "/publish", None),
      Echo(response, PublishFailed, applicationSlug))
  }

  function CreateColumn<A>(column: A, response: Response<Column>): (c: Call<A, Column>)
    ensures c.request == Request(Post, "admin/columns", Some(column))
    ensures SettlesOn200(c.outcome, response, "Failed to add column to row")
    ensures c.outcome.Fulfilled? ==> c.outcome.value == response.data
  {
    Call(Request(Post, "admin/columns", Some(column)), StatusChecked(response, CreateColumnFailed))
  }

  // ---------------------------------------------------------------------
  // What the fetches hand back, proved against the census of the payload
  // ---------------------------------------------------------------------

  /** Tables describing a census with unique ids list exactly the census's
      records: the same records, each once, in an order left open. */
  lemma ListsMatchCensus(e: Entities, c: Census)
    requires Describes(e, c) && Distinct(c)
    ensures multiset(ListOf(Field(e.sections))) == multiset(c.sections)
    ensures multiset(ListOf(Field(e.rows))) == multiset(c.rows)
    ensures multiset(ListOf(Field(e.columns))) == multiset(c.columns)
    ensures multiset(ListOf(Field(e.inputs))) == multiset(c.inputs)
  {
    ExtractedRecords(e.sections, c.sections, SectionKey);
    ExtractedRecords(e.rows, c.rows, RowKey);
    ExtractedRecords(e.columns, c.columns, ColumnKey);
    ExtractedRecords(e.inputs, c.inputs, InputKey);
  }

  /** The admin fetch always finds the root application (the lookup uses
      the payload's own id), whatever slug was requested. */
  lemma GetApplicationFindsRoot(slug: string, status: int, a: ApplicationNode)
    ensures GetApplication(slug, Received(status, a)).outcome.Fulfilled?
    ensures GetApplication(slug, Received(status, a)).outcome.value.application == Some(FlatApplication(a))
  {
    ApplicationRoot(a);
  }

  /** With unique ids, each list of the admin fetch holds exactly the
      entities of that type nested in the payload; in particular a type the
      payload does not contain gives the empty list. */
  lemma GetApplicationLists(slug: string, status: int, a: ApplicationNode)
    requires Distinct(ApplicationCensus(a))
    ensures var d := GetApplication(slug, Received(status, a)).outcome.value;
            && multiset(d.sections) == multiset(ApplicationCensus(a).sections)
            && multiset(d.rows) == multiset(ApplicationCensus(a).rows)
            && multiset(d.columns) == multiset(ApplicationCensus(a).columns)
            && multiset(d.inputs) == multiset(ApplicationCensus(a).inputs)
  {
    ApplicationNormalizes(a);
    ListsMatchCensus(NormalizeApplication(a).entities, ApplicationCensus(a));
  }

  /** The section fetch succeeds exactly when the payload's section has the
      requested id and comes with its application; it then returns that
      section with its application reference as the application's id, and
      that application as it came. Otherwise it throws. */
  lemma GetSectionFinds(id: Id, status: int, t: SectionTree)
    ensures GetSection(id, Received(status, t)).outcome.Fulfilled? <==> id == t.section.id && t.application.Some?
    ensures !GetSection(id, Received(status, t)).outcome.Fulfilled? ==> GetSection(id, Received(status, t)).outcome.Thrown?
    ensures GetSection(id, Received(status, t)).outcome.Fulfilled? ==>
              && GetSection(id, Received(status, t)).outcome.value.section == FlatSection(t.section, t.application)
              && GetSection(id, Received(status, t)).outcome.value.section.application == Some(t.application.value.id)
              && GetSection(id, Received(status, t)).outcome.value.application == t.application
  {
    SectionTreeRoot(t);
  }

  /** With unique ids, the section fetch lists exactly the rows, columns and
      inputs nested in the payload's section. */
  lemma GetSectionLists(status: int, t: SectionTree)
    requires Distinct(SectionTreeCensus(t)) && t.application.Some?
    ensures GetSection(t.section.id, Received(status, t)).outcome.Fulfilled?
    ensures var d := GetSection(t.section.id, Received(status, t)).outcome.value;
            && multiset(d.rows) == multiset(SectionTreeCensus(t).rows)
            && multiset(d.columns) == multiset(SectionTreeCensus(t).columns)
            && multiset(d.inputs) == multiset(SectionTreeCensus(t).inputs)
  {
    GetSectionFinds(t.section.id, status, t);
    SectionTreeNormalizes(t);
    ListsMatchCensus(NormalizeSectionTree(t).entities, SectionTreeCensus(t));
  }

  /** A table with one entry lists that entry first. */
  lemma FirstOfOne(k: Id, row: Row)
    ensures FirstRow(map[k := row]) == Some(row)
  {
    assert map[k := row].Values == {row};
  }

  /** On status 200 the created row comes back flattened (its columns as
      ids) with, given unique ids, exactly the columns nested in it. The
      inputs nested in those columns are normalized but not returned. */
  lemma CreateRowReturnsRow(newRow: CreateRowAttributes, r: RowNode)
    ensures CreateRow(newRow, Received(200, r)).outcome.Fulfilled?
    ensures CreateRow(newRow, Received(200, r)).outcome.value.row == FlatRow(r)
    ensures Distinct(RowCensus(r)) ==>
              multiset(CreateRow(newRow, Received(200, r)).outcome.value.columns) == multiset(RowCensus(r).columns)
  {
    RowRoot(r);
    FirstOfOne(r.id, FlatRow(r));
    if Distinct(RowCensus(r)) {
      RowNormalizes(r);
      ListsMatchCensus(NormalizeRow(r).entities, RowCensus(r));
    }
  }

  /** A rejected mutation names the thunk that failed: no two of them share
      a message, and none uses the fetches' message. */
  lemma MutationMessagesDistinct()
    ensures forall i, j :: 0 <= i < j < |MutationMessages| ==> MutationMessages[i] != MutationMessages[j]
    ensures LoadFailed !in MutationMessages
  {
  }

  /** Numeric ids are written in decimal, so two deletes hit the same path
      only for the same id. */
  lemma DeleteApplicationPaths<D>(m: int, n: int, r1: Response<D>, r2: Response<D>)
    requires DeleteApplication(m, r1).request.path == DeleteApplication(n, r2).request.path
    ensures m == n
  {
    var prefix := "admin/applications/";
    assert DeleteApplication(m, r1).request.path[|prefix|..] == NumberText(m);
    assert DeleteApplication(n, r2).request.path[|prefix|..] == NumberText(n);
    NumberTextInjective(m, n);
  }
}
