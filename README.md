# Todo list: a Dafny model of the store, the record types and the form schema

This project models the logic of a browser todo list. A user fills in a form
(activity name, price, category, whether booking is required, an
accessibility score). The form's schema checks the values. A provider object
owns the ordered list of todo records: it appends a validated candidate with
a generated id and creation time, removes records by id, and at start-up
rebuilds the list from what local storage holds, turning each stored
`createdAt` text back into a timestamp.

Files, one module each:

- `wrappers.dfy` — `Option` and `Result`.
- `todo_types.dfy` (`TodoTypes`) — the nine categories (`TodoType`), their
  string literals (`Tag`, `ParseTag`), the seven-field record `Todo`, an
  opaque `Timestamp`, and the list predicates `Ids`, `UniqueIds`, `WellFormed`.
- `todo_context.dfy` (`TodoContext`) — the candidate record `TodoInput`; the
  list updates as pure sequence functions (`Added`, `Removed`, `Hydrate`,
  `Snapshot`) with their lemmas; the class `TodoProvider`, whose `todos`
  field the methods `AddTodo`, `RemoveTodo` and `Load` replace; and `UseTodo`.
- `todo_form.dfy` (`TodoForm`) — the raw form values, the four field rules,
  `Issues`, `Validate`, the category lists, the default values, and `Submit`,
  the only path from the form into the store.

The field the source calls `type` is named `category` here, because `type` is
a Dafny keyword. Price and accessibility are `real`.

Generated values are parameters. `crypto.randomUUID()` becomes the argument
`freshId`, which must not already be in use (`freshId !in Ids(todos)`).
`new Date()` becomes the argument `now`. Writing a timestamp as text and
reading it back become the function arguments `toIso` and `parseDate`.

The stored form is modelled after parsing, as a sequence of `StoredTodo`
records whose `createdAt` is a string. The load step takes an
`Option<seq<StoredTodo>>`. `None` stands for "no truthy value under the key
`todos`", and then the list keeps its current (initially empty) value.

Where the design text and the code differ, the model follows the code. The
design describes validation errors by field. The model reports every failing
rule, in schema order, as the schema library does for an object schema. The
accessibility rule has two bounds, each reported on its own.

## Model

| member | source | states |
|---|---|---|
| TodoTypes.ParseTag | src/types/todo.ts:5-14 | a string is read as category t exactly when it is t's literal; every other string is rejected |
| TodoTypes.TodoTypeIsClosed | src/types/todo.ts:5-14 | there are exactly nine categories, every category is among them, and their nine literals are pairwise distinct |
| TodoTypes.TagInjective | src/types/todo.ts:5-14 | two categories with the same literal are the same category |
| TodoTypes.UniqueIdsCons | src/types/todo.ts:21-22 | a list with a record in front has unique ids exactly when the rest does and the front id is not used in the rest |
| TodoContext.NewTodo | src/contexts/TodoContext.tsx:53-58 | the built record agrees with the candidate on all five candidate fields and carries the given id and creation time |
| TodoContext.Added | src/contexts/TodoContext.tsx:59 | the list grows by exactly one; every earlier record stays at its index; the new record is last |
| TodoContext.AddedIds | src/contexts/TodoContext.tsx:54-59 | after an add, the ids in use are the old ones plus the new id |
| TodoContext.AddedKeepsUniqueIds | src/contexts/TodoContext.tsx:54-59 | when the new id is fresh, an add keeps ids unique |
| TodoContext.AddedKeepsWellFormed | src/contexts/TodoContext.tsx:53-59 | adding a well-formed record to a well-formed list gives a well-formed list |
| TodoContext.Removed | src/contexts/TodoContext.tsx:66-68 | a record survives the filter exactly when it was in the list and its id differs from the removed id; the list never grows |
| TodoContext.RemovedIds | src/contexts/TodoContext.tsx:66-68 | after a removal, the ids in use are the old ones minus the removed id |
| TodoContext.RemovedConcat | src/contexts/TodoContext.tsx:67 | filtering a concatenation filters each part and concatenates the results, so kept records keep their relative order |
| TodoContext.RemovedAbsent | src/contexts/TodoContext.tsx:67 | removing an id that is not in use leaves the list unchanged |
| TodoContext.RemovedIdempotent | src/contexts/TodoContext.tsx:67 | removing an id twice gives the same list as removing it once |
| TodoContext.RemovedAt | src/contexts/TodoContext.tsx:66-68 | with unique ids, removing the id of the record at index k gives the list without that one record, one shorter |
| TodoContext.RemovedKeepsUniqueIds | src/contexts/TodoContext.tsx:66-68 | a removal keeps ids unique |
| TodoContext.AddThenRemove | src/contexts/TodoContext.tsx:53-68 | adding a record with a fresh id and then removing that id gives back the original list |
| TodoContext.Dehydrate | src/contexts/TodoContext.tsx:46 | the stored form of a record keeps its id and the five candidate fields and writes its timestamp as text |
| TodoContext.RehydrateDehydrate | src/contexts/TodoContext.tsx:36-46 | a record written out and read back is the same record, provided its timestamp survives the trip |
| TodoContext.Snapshot | src/contexts/TodoContext.tsx:44-47 | the saved list has one stored record per record, in the same order, each with its timestamp written as text |
| TodoContext.Rehydrate | src/contexts/TodoContext.tsx:36-39 | a loaded record keeps the stored id and candidate fields; its createdAt is the parsed stored text |
| TodoContext.Hydrate | src/contexts/TodoContext.tsx:36-39 | the rebuilt list has the parsed list's length and order, record by record |
| TodoContext.Loaded | src/contexts/TodoContext.tsx:31-42 | with nothing stored the list is left as it was; otherwise it is the stored list rebuilt record by record, in the same order, each keeping its fields with only createdAt parsed |
| TodoContext.HydrateSnapshot | src/contexts/TodoContext.tsx:31-47 | saving and then loading gives back the same list, provided parsing a written timestamp gives that timestamp back |
| TodoContext.TodoProvider.constructor | src/contexts/TodoContext.tsx:28 | a new provider holds the empty list, which has unique ids and only well-formed records |
| TodoContext.TodoProvider.AddTodo | src/contexts/TodoContext.tsx:53-60 | the list becomes the old list with the new record appended; the ids in use gain the fresh id; unique ids are kept |
| TodoContext.TodoProvider.RemoveTodo | src/contexts/TodoContext.tsx:66-68 | the list becomes the filtered old list; the removed id is no longer in use; unique ids and well-formedness are kept |
| TodoContext.TodoProvider.Load | src/contexts/TodoContext.tsx:31-42 | the list becomes what the load step gives for the stored value |
| TodoContext.UseTodo | src/contexts/TodoContext.tsx:82-88 | access succeeds with the provider exactly when one is in scope; otherwise it fails with the "used within a TodoProvider" message |
| TodoForm.CustomMessage | src/components/TodoForm.tsx:35-36 | exactly the activity rule and the price rule carry a message of their own |
| TodoForm.RejectionMessages | src/components/TodoForm.tsx:35-36 | an empty activity is rejected with "Activity is required"; a negative price is rejected with "Price must be positive" |
| TodoForm.Valid | src/components/TodoForm.tsx:34-50 | the schema passes exactly when the activity is non-empty, the price is at least 0, the category is one of the nine literals and the accessibility lies in [0, 1] |
| TodoForm.TypeListsAgree | src/components/TodoForm.tsx:18-47 | the select's options are exactly the nine categories in declaration order, and the enum's literals are their tags in the same order |
| TodoForm.TypeOkIffTag | src/components/TodoForm.tsx:37-47 | the enum rule accepts a string exactly when it is the literal of some category |
| TodoForm.Issues | src/components/TodoForm.tsx:34-50 | each rule is reported exactly when its field fails (empty activity, negative price, unknown category, accessibility below 0, accessibility above 1); no issue at all exactly when the values are valid |
| TodoForm.Validate | src/components/TodoForm.tsx:34-50 | success exactly when all four rules hold, with a candidate carrying the submitted fields; otherwise a non-empty list of every failed rule |
| TodoForm.ValidatedIsWellFormed | src/components/TodoForm.tsx:34-50 | a candidate that passes the schema becomes a well-formed record, whatever id and time it gets |
| TodoForm.DefaultsRejected | src/components/TodoForm.tsx:63-69 | the untouched form fails on the activity rule and on no other rule |
| TodoForm.BoundsAccepted | src/components/TodoForm.tsx:36-49 | a price of 0 and an accessibility of exactly 0 or exactly 1 pass |
| TodoForm.Submit | src/components/TodoForm.tsx:76-91 | the result is the schema's verdict; a rejected submission leaves the store unchanged; an accepted one appends the candidate; unique ids and well-formedness are kept |

## Left out

- JSX rendering, layout, styling, toasts and `form.reset()`. They are display only.
- Reading and writing local storage, and the JSON text format. The model starts from the parsed stored list and ends at the stored list that would be written.
- Bad stored values. On a malformed stored text `JSON.parse` throws, and on a parsed value that is not an array `map` throws; nothing catches either, so the load fails. Records with missing or mistyped fields (an unknown category, a missing `createdAt`) pass through unchecked. The model assumes storage has already been parsed into well-typed `StoredTodo` records, so it captures neither the failure nor the unchecked records.
- `crypto.randomUUID()` and `new Date()`. They become the arguments `freshId` and `now`.
- The text format of timestamps. `toIso` and `parseDate` are parameters. The save/load round trip holds on the condition that parsing a written timestamp gives it back.
- React effect scheduling and `setTodos` batching. This includes the order of the load and save effects on mount.
- Floating point. Price and accessibility are reals, so `parseFloat` producing NaN and `toFixed(2)` formatting are not modelled.
- The schema library's built-in messages for the enum and accessibility rules. Only the two custom messages are modelled (`CustomMessage`).
- The `bookingRequired` rule. The field is a `bool` in the model, so the rule always passes.
- Validation's purity and determinism are not stated as lemmas. `Validate` is a Dafny function, so both hold by construction.
