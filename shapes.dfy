/** Shapes of the application designer's entities.

    Two families: the nested payloads the server sends for a form tree
    (Application -> sections -> rows -> columns -> input), and the flat
    records that normalization stores, in which every nested entity has been
    replaced by its id and every nested array by the ordered list of ids.
    Record fields follow applications.interface.ts; a field the server may
    leave out is an `Option`, so `None` stands for an absent (or null) key.
 */
module Shapes {

  /** Entity ids are opaque strings: no ordering or arithmetic is assumed. */
  type Id = string

  datatype Option<+T> = None | Some(value: T)

  /** An input placed in a column (its `type` and `label` are `kind` and
      `caption` here, both words being reserved in Dafny). It nests nothing, so the payload object
      and the record stored in the `inputs` table are the same value. */
  datatype Input = Input(id: Id, columnId: Id, kind: string, caption: string)

  // ---- nested payloads, as they arrive after key-case conversion ----

  /** A column object; `input` is the nested input object, if any. */
  datatype ColumnNode = ColumnNode(id: Id, rowId: Id, sectionId: Id, input: Option<Input>)

  /** A row object with its nested `columns` array. */
  datatype RowNode = RowNode(
    id: Id, sectionId: Id, numOfCols: Option<int>, columns: Option<seq<ColumnNode>>)

  /** A section object with its nested `rows` array. */
  datatype SectionNode = SectionNode(
    id: Id, applicationId: Id, title: Option<string>, details: Option<string>,
    numOfCols: int, rows: Option<seq<RowNode>>)

  /** An application object with its nested `sections` array. */
  datatype ApplicationNode = ApplicationNode(
    id: Id, title: Option<string>, details: Option<string>, sections: Option<seq<SectionNode>>)

  /** The payload of a section fetch: the section object plus its sibling
      `application` object, which is taken as it comes (its own children are
      never expanded, so it is already shaped like a stored record). */
  datatype SectionTree = SectionTree(section: SectionNode, application: Option<Application>)

  // ---- flat records (IApplication, ISection, IRow, IColumn) ----

  datatype Column = Column(id: Id, rowId: Id, sectionId: Id, input: Option<Id>)

  datatype Row = Row(id: Id, sectionId: Id, numOfCols: Option<int>, columns: Option<seq<Id>>)

  datatype Section = Section(
    id: Id, applicationId: Id, title: Option<string>, details: Option<string>,
    numOfCols: int, rows: Option<seq<Id>>, application: Option<Id>)

  datatype Application = Application(
    id: Id, title: Option<string>, details: Option<string>, sections: Option<seq<Id>>)

  // ---- arguments and results of the designer's mutations ----
  // (the column, input and submission attributes are only ever passed on
  // verbatim, so the thunks that take them are generic in their type)

  /** ICreateApplicationAttributes */
  datatype CreateApplicationAttributes = CreateApplicationAttributes(title: string, details: Option<string>)

  /** ICreateSectionAttributes */
  datatype CreateSectionAttributes = CreateSectionAttributes(
    title: string, details: Option<string>, numOfCols: int, applicationId: Id)

  /** ICreateRowAttributes */
  datatype CreateRowAttributes = CreateRowAttributes(numOfCols: int, sectionId: Id)

  /** IDeleteColumnResult */
  datatype DeleteColumnResult = DeleteColumnResult(columnId: Id, rowId: Id)
}
