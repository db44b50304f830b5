# GraphQL-to-workbook plugin and contacts record hook, modelled in Dafny

This project models the GraphQL plugin of the Flatfile configuration
repository: the compiler that turns an introspected GraphQL schema into a
Flatfile workbook configuration. It also models the record hook that
validates the "contacts" sheet.

- `generate_field.dfy` (module `FieldMapping`) is `generateField` and
  `getType`. A GraphQL field type is a closed datatype `TypeRef`:
  `Scalar`, `Object`, `List`, `NonNull` and `Other`. The mapping recurses
  structurally through `NonNull` and gives one Flatfile field (`Property`)
  or `None` (the source's `null`).
- `generate_sheet.dfy` (module `SheetGeneration`) is `generateSheets`.
  It covers the override lookup by slug, the mapped fields with the skipped
  ones dropped, and the synthesized `id` field. The in-place `unshift` of
  the local field list is the method `GenerateSheet`, proved equal to the
  function `Candidate`. The module ends with the reference-integrity
  filter, which checks against the whole object list.
- `generate_workbook.dfy` (module `WorkbookGeneration`) is `getObjects`
  and `generateWorkbook`. It covers the dispatch on the source kind, the
  filter that keeps user-defined object types, and the merge into the
  caller's configuration under a default name.
- `contacts_hook.dfy` (module `ContactsHook`) is the `recordHook("contacts", …)`
  callback. The record is a class with a value map and an error list. The
  hook is a method that changes it in place, specified by the functions
  `HookValues` and `HookErrors`. The email regular expression
  `/^[^\s@]+@[^\s@]+\.[^\s@]+$/` is given twice and proved equivalent:
  - as what the pattern matches: a split into plain text, `@`, plain text,
    `.`, plain text;
  - as a direct check: one `@`, a non-empty local part, and a `.` strictly
    inside the domain.
- `plugin_types.dfy`, `wrappers.dfy` and `seqs.dfy` hold the data model
  (the shapes of `types.ts`), `Option`/`Result`, and the subsequence
  relation used to state that the filters keep order.

Calls into libraries are parameters of the functions that make them. This
covers `capitalCase` (change-case), the `URL` constructor behind
`isValidUrl`, the three introspections, `toLowerCase`, and libphonenumber's
`parseAndKeepRawInput`, `isPossibleNumber` and `isValidNumber`. Every
property is proved for all of their behaviours.

The model follows the code where one might expect otherwise:
- A `NON_NULL` field does not become `required`. The recursive call at
  `generateField.ts:34` rebuilds the base property from the inner type, so
  the constraint computed at line 16 is dropped. `GenerateField` ensures
  `constraints == Some([])`.
- The `id` test looks only at the key. A declared `id: ID!` gives a
  string-typed `id` field, and no numeric `id` is prepended
  (`DeclaredIdKept`).
- The integrity filter checks references against every extracted object,
  not against the sheets that survive it.

## Model

| member | source | states |
|---|---|---|
| FieldMapping.ScalarType | typescript/graphql-plugin/generateField.ts:43-53 | `Float` and `Int` map to number, `Boolean` to boolean, every other scalar name to string |
| FieldMapping.GenerateField | typescript/graphql-plugin/generateField.ts:4-41 | null iff the type under the NON_NULL wrappers is an unsupported kind. Key = field name; label = capitalCase(name); description = source description or "". Constraints are always empty (NON_NULL never leaves `required`). multi is true iff the unwrapped kind is LIST. SCALAR gives getType(name) with no config. OBJECT gives a reference with config {ref: type name, key "id", relationship "has-one"}. LIST gives string |
| FieldMapping.NonNullTransparent | typescript/graphql-plugin/generateField.ts:33-34 | any number of NON_NULL wrappers leaves the result unchanged: the field maps as its inner type with the same name and description |
| FieldMapping.UnsupportedSkipped | typescript/graphql-plugin/generateField.ts:35-40 | an unsupported kind yields null under any number of NON_NULL wrappers |
| FieldMapping.ListIgnoresElementType | typescript/graphql-plugin/generateField.ts:28-32 | a LIST field's result does not depend on its element type, and it is multi |
| SheetGeneration.FirstWithSlug | typescript/graphql-plugin/generateSheet.ts:12 | the index found is that of the first configuration with the object's slug, or the end when none has it |
| SheetGeneration.FindOverride | typescript/graphql-plugin/generateSheet.ts:11-12 | the override is the first element whose slug equals the object name. It is absent iff the array is absent or no element has that slug |
| SheetGeneration.MappedFields | typescript/graphql-plugin/generateSheet.ts:14-16 | at most one field per source field. `MappedFieldsMembers`, `MappedFieldsAppend` and `MappedFieldsSingle` state which fields and in what order |
| SheetGeneration.MappedFieldsMembers | typescript/graphql-plugin/generateSheet.ts:14-16 | a field is in the mapped list iff some source field maps to it (nulls are dropped) |
| SheetGeneration.MappedFieldsAppend | typescript/graphql-plugin/generateSheet.ts:14-16 | mapping a concatenation maps each part in turn, so the surviving fields keep source order whatever is dropped between them |
| SheetGeneration.MappedFieldsSingle | typescript/graphql-plugin/generateSheet.ts:14-16 | one field maps to its image, or to nothing when its unwrapped kind is unsupported |
| SheetGeneration.MappedFieldsInOrder | typescript/graphql-plugin/generateSheet.ts:14-16 | the case where nothing is dropped: when every field is supported, the mapped list has one field per source field, in source order |
| SheetGeneration.WithIdField | typescript/graphql-plugin/generateSheet.ts:20-22 | the result has an "id" key. It is one longer exactly when the input had none; then the synthesized {id, "Id", number} field is first. The input fields follow unchanged |
| SheetGeneration.DeclaredIdKept | typescript/graphql-plugin/generateSheet.ts:20-22 | an object declaring a supported field named "id" keeps its mapped fields as they are, with nothing prepended |
| SheetGeneration.Candidate | typescript/graphql-plugin/generateSheet.ts:10-33 | a candidate is never null and always has an "id" field. Its name is capitalCase(object name), its slug the object name, its description the object's or "". It holds every other override property unchanged and none of the four computed keys. Its fields are the mapped fields with the id field added when missing |
| SheetGeneration.GenerateSheet | typescript/graphql-plugin/generateSheet.ts:10-33 | the step-by-step version, with the id field unshifted onto the local field list, yields exactly `Candidate`. It is never null and has an id field |
| SheetGeneration.GenerateSheets | typescript/graphql-plugin/generateSheet.ts:5-44 | at most one sheet per object. Every sheet produced has an "id" field and the slug of an input object. All of its reference fields name an object of the whole input list |
| SheetGeneration.KeepSheets | typescript/graphql-plugin/generateSheet.ts:34-43 | every kept sheet is a non-null candidate that passes the reference check |
| SheetGeneration.KeepSheetsMembers | typescript/graphql-plugin/generateSheet.ts:34-43 | a sheet is kept iff it is a non-null candidate whose reference fields all name an object of the universe |
| SheetGeneration.KeepSheetsInOrder | typescript/graphql-plugin/generateSheet.ts:34-43 | the kept sheets are a subsequence of the non-null candidates |
| SheetGeneration.PresentAll | typescript/graphql-plugin/generateSheet.ts:36 | when no candidate is null, the null test removes nothing |
| SheetGeneration.GeneratedSheetsMembers | typescript/graphql-plugin/generateSheet.ts:9-43 | a sheet is generated iff it is the candidate of some object and survives the reference check against the whole input object list |
| SheetGeneration.GeneratedSheetsInOrder | typescript/graphql-plugin/generateSheet.ts:9-43 | the generated sheets are a subsequence of the candidates, in object order |
| SheetGeneration.NoReferenceKept | typescript/graphql-plugin/generateSheet.ts:38-41 | a candidate with no reference field is always generated |
| SheetGeneration.DanglingReferenceDropped | typescript/graphql-plugin/generateSheet.ts:38-41 | an object with a field whose unwrapped type is an object missing from the input list loses its sheet |
| WorkbookGeneration.UserObjectByFirstChar | typescript/graphql-plugin/generateWorkbook.ts:51-55 | a type is kept iff its kind is OBJECT, its name is not Query, Mutation or Subscription, and its name does not start with "_" (the "__" test is subsumed) |
| WorkbookGeneration.UserObjects | typescript/graphql-plugin/generateWorkbook.ts:50-56 | never more types than introspected. `UserObjectsMembers` and `UserObjectsInOrder` state which types and in what order |
| WorkbookGeneration.UserObjectsMembers | typescript/graphql-plugin/generateWorkbook.ts:50-56 | a type is extracted iff it is in the introspected list and passes the filter |
| WorkbookGeneration.UserObjectsInOrder | typescript/graphql-plugin/generateWorkbook.ts:50-56 | the extracted types are a subsequence of the introspected list |
| WorkbookGeneration.Introspect | typescript/graphql-plugin/generateWorkbook.ts:38-47 | a valid-URL string goes to URL introspection, any other string to SDL introspection, a schema instance to schema introspection; anything else fails with "Not a valid GraphQL Schema" |
| WorkbookGeneration.GetObjects | typescript/graphql-plugin/generateWorkbook.ts:34-57 | fails exactly when introspection fails, with its error. Otherwise it holds exactly the introspected types that pass the filter, in their order |
| WorkbookGeneration.GenerateWorkbook | typescript/graphql-plugin/generateWorkbook.ts:20-32 | fails exactly when getObjects fails. The name is the caller's, else "GraphQL Plugin Generated Workbook". Source and every other caller property are copied; the props contain none of the keys name, source and sheets, which the result holds in its own fields. The sheets are the generated list, built from the caller's `sheets` overrides and replacing them |
| WorkbookGeneration.WorkbookSheetsWellFormed | typescript/graphql-plugin/generateWorkbook.ts:20-32 | every workbook sheet has an "id" field and the slug of a user-defined object type. Each of its reference fields names a user-defined object type of the introspected schema |
| ContactsHook.HookValues | typescript/index.ts:147-152 | only firstName can change; every other value and the key set stay as they were |
| ContactsHook.ContactsRecordHook | typescript/index.ts:145-184 | the same record is returned. Its values become `HookValues` of the old ones. It gains `HookErrors` of the old values, after its earlier errors and in the order firstName, email, phoneNumber |
| ContactsHook.FirstNameRule | typescript/index.ts:147-152 | a string firstName becomes toLowerCase of it with no firstName error. Any other value (or none) is left unchanged and gets exactly "Invalid first name" |
| ContactsHook.EmailCheckMatchesPattern | typescript/index.ts:156-157 | the direct check accepts exactly the strings the regular expression matches |
| ContactsHook.EmailRule | typescript/index.ts:155-160 | the email gets the single error "Invalid email address" exactly when its string form does not match the pattern |
| ContactsHook.NonTextEmailRejected | typescript/index.ts:155-157 | a non-string or missing email never matches, since its string form has no "@" |
| ContactsHook.PhoneRule | typescript/index.ts:162-181 | at most one phoneNumber error. It carries the thrown message when parsing throws, and "Invalid phone number" when the number is not possible, or possible but not valid. There is none otherwise |
| ContactsHook.ErrorsOnlyOnCheckedFields | typescript/index.ts:151-180 | the hook adds at most three errors, all on firstName, email or phoneNumber |

## Left out

- Diagnostics: the `console.log` of a skipped field (generateField.ts:36-38) and of the hook are not modelled. `generateField`'s `sheetName` argument is used only there, so it is dropped.
- Introspection (introspection.ts) is not part of this model. It covers the HTTP fetch, `buildSchema` and `graphqlSync`. Its three entry points and `isValidUrl` are uninterpreted parameters returning the `__schema.types` list or an error. A non-2xx response and a malformed SDL are errors those parameters may return.
- `capitalCase`, `toLowerCase` and the three libphonenumber calls are uninterpreted parameters. Only the literal label "Id" of the synthesized field is fixed.
- Concurrency: the `await` on introspection is a single call in this model.
- Cell values are strings, integers, booleans or null. Floating-point numbers are not modelled. Their string forms also contain no "@", so they fail the email check like integers do.
- The caller's `name`, `source` and `sheets` live in fields of their own in `WorkbookConfig`. A key with one of those names in its other properties is a duplicate that the model does not copy.
- A caller configuration that sets `name` explicitly to `undefined` gets `undefined` from the spread. The model treats an absent name and an undefined one alike.
- A reference field without a `config` would make the filter throw. The field mapping never produces one, and the model's filter treats it as failing.
- Everything else in typescript/index.ts is not part of this model: the event listeners, the space, workbook and document API calls, and the webhook POST.
- typescript/contactsSheet.ts (a constant) and typescript/graphql-config/index.ts (example wiring) are not part of this model.
