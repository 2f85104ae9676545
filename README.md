# QuikApply form designer: normalization and thunk results in Dafny

QuikApply lets an operator design an application form as a tree
(application → sections → rows → columns → an optional input in each
column) and lets an applicant fetch a published form and submit it. The
front end receives such trees from the server and flattens them with
normalizr into five id-keyed tables (`applications`, `sections`, `rows`,
`columns`, `inputs`). Its remote calls are Redux async thunks that settle
with the response data, with a value taken from their argument, or with a
fixed error message.

This project models:

- `shapes.dfy`: the nested payloads and the flat records that the tables
  store. Field names follow `applications.interface.ts`.
- `tables.dfy`: a JavaScript object used as a table. `Object.keys` lists each
  key once in an order the model leaves open. A table normalizr never
  created reads as `undefined`.
- `schemas.dfy`: the seven schema declarations, kept as data. normalizr's
  documented behaviour on them is written out level by level. It is proved
  against a census, which is the list of every entity occurrence in the
  payload, flattened, in document order. It is also proved against the
  inverse, denormalization. Both hold for all three roots.
- `thunks.dfy`: what an awaited call can produce, and how a thunk settles.
  Also the shared "status must be exactly 200" check, and decimal
  formatting of numeric ids in request paths.
- `designer_services.dfy` and `apply_services.dfy`: every thunk of the two
  service files. Each one is a function from its argument and the response
  to the request it sends and its outcome. Lemmas tie the fetched lists to
  the census of the payload.

Ids are opaque strings. Results about table contents assume that ids are
unique per entity type within one payload, as the source does.

Where the system's written design and its code differ, the model follows
the code:

- A mutation fails on any resolved status other than exactly 200, not on
  "non-2xx". Its rejection carries only a message and no upstream status.
  Only the two designer fetches add the status.
- `Publish` sends a PATCH with no body and settles with the slug it was
  given. No publication-status field is modelled, because the code has none.
- `DeleteApplication`, `DeleteSection` and `DeleteRow` take numbers. The
  number is written into the path (in decimal for the integer ids the
  model covers).
- The fetches return an `inputs` list. The interface declares `elements`
  for the application fetch and no input list at all for the section fetch.
- The entity store's merge and cascade-delete rules belong to store
  slices that are not part of this model.

## Model

| member | source | states |
|---|---|---|
| Schemas.RootSchemasShareTables | src/features/applications/schemas.ts:3-28 | ApplicationSchema and SectionSchema write into all five tables, and RowSchema into rows, columns and inputs. RowSchema is the same declaration as the row schema nested in sections. SectionSchema is the nested section schema plus one `application` entity |
| Schemas.NormalizeColumns | src/features/applications/schemas.ts:9-11 | a `columns` array becomes one id per column, in the same order |
| Schemas.NormalizeRows | src/features/applications/schemas.ts:13-15 | a `rows` array becomes one id per row, in the same order |
| Schemas.NormalizeSections | src/features/applications/schemas.ts:17-19 | a `sections` array becomes one id per section, in the same order |
| Schemas.ColumnNormalizes | src/features/applications/schemas.ts:3-7 | specifies `NormalizeColumn` and `NormalizeInput`: the tables from a column hold exactly that column, with its `input` replaced by the input's id, and that input under its id |
| Schemas.ColumnsNormalize | src/features/applications/schemas.ts:9-11 | the tables from a column array hold exactly the census of all its columns and inputs. Records are stored under their ids when ids are unique |
| Schemas.RowNormalizes | src/features/applications/schemas.ts:9-11 | specifies `NormalizeRow`, which serves both the nested row schema and RowSchema (lines 26-28, the same declaration): the tables from a row hold the row with `columns` as the ordered column ids, plus every nested column and input |
| Schemas.RowsNormalize | src/features/applications/schemas.ts:13-15 | the tables from a row array hold exactly the census of its rows, columns and inputs |
| Schemas.SectionRowsNormalize | src/features/applications/schemas.ts:13-15 | a section's optional `rows` becomes the ordered row ids, or stays absent. Its tables hold the census below it |
| Schemas.SectionNormalizes | src/features/applications/schemas.ts:13-15 | specifies `NormalizeSection`: the tables from a nested section hold the section with its row ids, plus everything below it |
| Schemas.SectionsNormalize | src/features/applications/schemas.ts:17-19 | the tables from a section array hold exactly the census of its sections and their descendants |
| Schemas.ApplicationNormalizes | src/features/applications/schemas.ts:17-19 | specifies `NormalizeApplication`: under ApplicationSchema, the table keys are exactly the ids in the payload. With unique ids, every flattened record is stored under its id |
| Schemas.SectionTreeNormalizes | src/features/applications/schemas.ts:21-24 | specifies `NormalizeSectionTree` (with `NormalizeSibling` and `AttachSection`): the same for SectionSchema: a section, its rows, columns and inputs, and the sibling application |
| Schemas.ApplicationRoot | src/features/applications/schemas.ts:17-19 | under ApplicationSchema, the result is the payload's id, and `applications` holds only the root application with its section ids |
| Schemas.SectionTreeRoot | src/features/applications/schemas.ts:21-24 | specifies `NormalizeSectionTree`: under SectionSchema, the result is the section's id. `sections` holds only that section, whose `application` is one id and not a list. `applications` holds the sibling exactly as it came, with its children not expanded, or nothing |
| Schemas.RowRoot | src/features/applications/schemas.ts:26-28 | under RowSchema, the result is the row's id and `rows` holds only that row |
| Schemas.ApplicationSchemaTables | src/features/applications/schemas.ts:17-19 | normalizing an application always creates `applications`, and creates `sections` exactly when the payload has at least one section. That no other table name appears follows from the five-table `Entities` type itself, not from normalization |
| Schemas.SectionSchemaTables | src/features/applications/schemas.ts:21-24 | normalizing a section always creates `sections`, and creates `applications` exactly when the payload carries its application. As above, the bound on table names holds by the `Entities` type |
| Schemas.RowSchemaTables | src/features/applications/schemas.ts:26-28 | normalizing a row always creates `rows`, and never creates `applications` or `sections` |
| Schemas.ColumnRoundTrip | src/features/applications/schemas.ts:3-7 | a column can be rebuilt from tables that store its census, including its input |
| Schemas.ColumnsRoundTrip | src/features/applications/schemas.ts:9-11 | the ordered column ids rebuild the original column array |
| Schemas.RowRoundTrip | src/features/applications/schemas.ts:9-11 | a row, with its columns in order, can be rebuilt from the tables |
| Schemas.RowsRoundTrip | src/features/applications/schemas.ts:13-15 | the ordered row ids rebuild the original row array |
| Schemas.SectionRoundTrip | src/features/applications/schemas.ts:13-15 | a section with its rows can be rebuilt from the tables |
| Schemas.SectionsRoundTrip | src/features/applications/schemas.ts:17-19 | the ordered section ids rebuild the original section array |
| Schemas.ApplicationRoundTrip | src/features/applications/schemas.ts:17-19 | with unique ids, denormalizing the normalized application gives back the payload exactly, with order at every level |
| Schemas.SectionTreeRoundTrip | src/features/applications/schemas.ts:21-24 | with unique ids, denormalizing under SectionSchema gives back the section and its sibling application |
| Schemas.RowTreeRoundTrip | src/features/applications/schemas.ts:26-28 | with unique ids, denormalizing under RowSchema gives back the row |
| Schemas.NestedRowAsRoot | src/features/applications/schemas.ts:9-28 | with unique ids, a row nested in an application puts into the tables the same records that RowSchema gives it at the root |
| Tables.KeyList | src/features/applications/services.ts:58-61 | `Object.keys` lists every key of the table exactly once and nothing else |
| Tables.Values | src/features/applications/services.ts:61 | `Object.keys(t).map((id) => t[id])`: as many elements as keys, and exactly the table's values |
| Tables.Field | src/features/applications/services.ts:58-61 | a table reads as `undefined` exactly when it has no entries |
| Tables.Lookup | src/features/applications/services.ts:57 | indexing a table gives the entry under the key when there is one, and `undefined` otherwise |
| Tables.ListOf | src/features/applications/services.ts:58-73 | an `undefined` table gives `[]`. A present one gives a list as long as the table, holding exactly its values |
| Tables.ListOfField | src/features/applications/services.ts:58-73 | an extracted list never fails. Its length is the table's key count, and its elements are exactly the table's values |
| Tables.ExtractedRecords | src/features/applications/services.ts:58-73 | the list from a table that holds records with distinct ids is a reordering of those records |
| Thunks.StatusChecked | src/features/applications/services.ts:99-105 | fulfilled with the response data exactly on a resolved status 200. Rejected with the given message and no status on any other resolved status. Thrown when the call itself was rejected |
| Thunks.Echo | src/features/applications/services.ts:134-140 | the same check, but fulfilled with a value given by the caller, whatever the response data |
| Thunks.NumberText | src/features/applications/services.ts:134 | a number in a path is non-empty text that starts with `-` exactly when the number is negative |
| Thunks.DigitsRoundTrip | src/features/applications/services.ts:134 | reading the decimal digits of a natural number back gives that number |
| Thunks.NumberTextInjective | src/features/applications/services.ts:134 | different numbers give different path segments |
| DesignerServices.GetApplications | src/features/applications/services.ts:27-33 | GETs `admin/applications` and settles with the response data. A failed call throws and is never mapped to a message |
| DesignerServices.LoadFailure | src/features/applications/services.ts:84-89 | an error with a response is rejected with "Failed to load application." and that response's status. One without a response throws |
| DesignerServices.ApplicationData | src/features/applications/services.ts:47-81 | the shaped result: the application is present exactly when the table has the looked-up key, and then is that entry. Each list has one element per table entry and holds exactly the table's values |
| DesignerServices.GetApplication | src/features/applications/services.ts:41-90 | GETs `admin/applications/<slug>`. Fulfilled exactly when the call resolved. Rejected exactly when it failed with a status, and then with "Failed to load application." and that status. Throws when there was no response |
| DesignerServices.GetApplicationFindsRoot | src/features/applications/services.ts:55-57 | the returned application is the root record, found under the payload's own id, whatever the slug |
| DesignerServices.GetApplicationLists | src/features/applications/services.ts:45-81 | with unique ids, the sections, rows, columns and inputs lists are reorderings of the payload's nested entities. A type that does not occur gives `[]` |
| DesignerServices.ListsMatchCensus | src/features/applications/services.ts:58-73 | tables that describe a census with unique ids list exactly that census's records, each once |
| DesignerServices.GetSection | src/features/applications/services.ts:181-225 | GETs `admin/sections/<id>`. Rejected exactly when the call failed with a status, and then with "Failed to load application." and that status. Throws when there was no response. Fulfilled only when the call resolved |
| DesignerServices.GetSectionFinds | src/features/applications/services.ts:194-195 | fulfilled exactly when the payload's section has the requested id and comes with its application. It then returns that section, whose `application` is the application's id, and the application under that reference. Otherwise it throws |
| DesignerServices.GetSectionLists | src/features/applications/services.ts:197-216 | with unique ids, the rows, columns and inputs lists are reorderings of those nested in the section |
| DesignerServices.CreateApplication | src/features/applications/services.ts:98-106 | POSTs the attributes to `admin/applications`. Settles with the response data on status 200, with "Failed to create application." on any other resolved status, and throws on a failed call |
| DesignerServices.UpdateApplication | src/features/applications/services.ts:114-125 | PUTs the record to the path of its own id. Settles with the response data on 200, and otherwise with "Failed to update application." |
| DesignerServices.DeleteApplication | src/features/applications/services.ts:133-141 | DELETEs `admin/applications/<n>`. Settles with its argument on 200, and otherwise with "Failed to delete application." |
| DesignerServices.DeleteApplicationPaths | src/features/applications/services.ts:134 | two application deletes reach the same path only for the same id |
| DesignerServices.CreateSection | src/features/applications/services.ts:149-157 | POSTs to `admin/sections`. Settles with the response data on 200, and otherwise with "Failed to create section." |
| DesignerServices.UpdateSection | src/features/applications/services.ts:165-173 | PUTs to `admin/sections/<id>`. Settles with the response data on 200, and otherwise with "Failed to update section." |
| DesignerServices.DeleteSection | src/features/applications/services.ts:233-241 | DELETEs `admin/sections/<n>`. Settles with its argument on 200, and otherwise with "Failed to delete section." |
| DesignerServices.FirstRow | src/features/applications/services.ts:260 | the entry under the first key that `Object.keys` lists, which is a value of the table. It is absent only for an empty table |
| DesignerServices.CreateRow | src/features/applications/services.ts:249-273 | POSTs `{ row: attributes }` to `admin/rows`. Rejected with "Failed to create row." exactly on a resolved status other than 200. Fulfilled only on 200 |
| DesignerServices.CreateRowReturnsRow | src/features/applications/services.ts:257-272 | on 200 it returns the single root row, flattened. With unique ids it also returns exactly the columns nested in the response |
| DesignerServices.UpdateRow | src/features/applications/services.ts:281-289 | PUTs to `admin/rows/<id>`. Settles with the response data on 200, and otherwise with "Failed to update row." |
| DesignerServices.DeleteRow | src/features/applications/services.ts:297-305 | DELETEs `admin/rows/<n>`. Settles with its argument on 200, and otherwise with "Failed to delete row." |
| DesignerServices.DeleteColumn | src/features/applications/services.ts:313-321 | DELETEs `admin/columns/<id>`. On 200 it returns the column's id and row id, taken from the argument and not from the response |
| DesignerServices.CreateInput | src/features/applications/services.ts:329-338 | POSTs to `admin/inputs`. Settles with the response data on 200, and otherwise with "Failed to add input" |
| DesignerServices.DeleteInput | src/features/applications/services.ts:346-354 | DELETEs `admin/inputs/<id>`. Settles with its argument on 200, and otherwise with "Failed to delete input" |
| DesignerServices.Publish | src/features/applications/services.ts:362-372 | PATCHes `admin/applications/<slug>/publish` with no body. Settles with the slug on 200, and otherwise with "Failed to publish application." |
| DesignerServices.CreateColumn | src/features/applications/services.ts:380-389 | POSTs to `admin/columns`. Settles with the response data on 200, and otherwise with "Failed to add column to row" |
| DesignerServices.MutationMessagesDistinct | src/features/applications/services.ts:99-388 | the fourteen status-checked thunks reject with pairwise different messages, none of them the fetches' message |
| ApplyServices.GetApplication | src/features/apply/services.ts:17-60 | GETs `applications/<id>`, a path outside `admin/`. Fulfilled exactly when the call resolved. Never rejected with an error message |
| ApplyServices.ApplicantFindsByArgument | src/features/apply/services.ts:32 | the application is the root record when the argument equals the payload's id, and `undefined` otherwise. All lists equal those of the designer's fetch of the same payload |
| ApplyServices.ApplicantAgreesWithDesigner | src/features/apply/services.ts:14-22 | asked for the payload's own id, the applicant fetch settles exactly as the designer's fetch of the same response does |
| ApplyServices.ApplicantLists | src/features/apply/services.ts:33-56 | with unique ids, the applicant's lists are reorderings of the payload's nested entities |
| ApplyServices.CreateSubmission | src/features/apply/services.ts:62-76 | POSTs to `submissions`. Settles with an empty object on 200, whatever the body, with "Failed to submit application." on any other resolved status, and throws on a failed call |

## Left out

- `src/utils/api.ts` is not part of this model. Host selection reads
  `window.location`. Key-case conversion is delegated to external
  libraries. Payloads are modelled as they look after camelCase
  conversion, and request bodies as they look before snake_case conversion.
- The async machinery (`createAsyncThunk`, `await`, action type strings) is
  not modelled. axios deciding which statuses reject is modelled as the
  `Response` input. A thrown error's contents are not modelled, only the
  fact that the thunk rejects without an IErrorMessage.
- normalizr's handling of duplicate ids is not modelled. There, fields of
  a later record are merged into an earlier one. Here, the later record
  replaces the earlier one. Every result about table contents assumes
  unique ids.
- The order of `Object.keys` is not modelled. The extracted lists are known
  only up to reordering. Display order is carried by the child-id lists.
- `null` tables: normalizr never produces one. The admin fetch's `===` and
  the applicant fetch's `==` therefore behave the same, and the model has
  a single "absent" case.
- The entity store (reducers, merge, cascade delete) and its selectors are
  not part of this model. Neither are the UI components and routing.
- IInput, the update attributes and the column, input and submission
  attributes are not declared in the interface file. The Input record is
  (id, columnId, kind, caption), stored as received. Update arguments are
  the entity's flat record. Column, input and submission attributes are a
  type parameter passed through unchanged.
- Thunks.NumberText: numeric thunk arguments are modelled as integers
  written in plain decimal. JavaScript writes a fractional number with a
  point, and an integer of magnitude 1e21 or more in exponent form
  (`1e+21`). Integers beyond 2^53 are not represented exactly. None of
  these cases is modelled; ids are assumed to be safe integers.
- Tables.Lookup: a JavaScript object also answers for names inherited from
  `Object.prototype` (`constructor`, `toString`, `valueOf`, `__proto__`,
  and so on). Indexing a table with such a key gives a function or an
  object, not `undefined`. The model gives `None` for every key the table
  lacks. Ids, and the arguments used as keys, are assumed not to be such
  names.
- DesignerServices.GetSectionFinds: holds only for requested ids that do
  not name an `Object.prototype` member (see `Tables.Lookup`). Requesting
  `constructor`, for example, makes the source fulfil with a non-record
  section.
- ApplyServices.ApplicantFindsByArgument: the same restriction. For such
  an argument the source returns an inherited function as the
  application instead of `undefined`.
- Response data is modelled as already having the declared shape. The
  source casts it without checking.
- DesignerServices.GetSection: a section payload whose `application`
  reference is missing while an `applications` table exists cannot arise.
  For that case the model follows JavaScript and looks up the key
  "undefined".
