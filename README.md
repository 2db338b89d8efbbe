# post-request-to-csv: a Dafny model of the CSV append engine

This project models the core of a small HTTP service that appends posted JSON
records as delimited rows to one flat file per table (`app/csv.js`), together
with the pad-width table of its console log format (`app/logger.js`).

What is modelled, module by module:

- `JsString` (js_string.dfy): the JavaScript built-ins the engine leans on —
  `join`, `split` on one character, `trim`, `toLowerCase` and the default
  `sort` order — with the facts the engine needs (split/join round trips,
  piece counts, a total order, a sorted permutation).
- `CsvRegistry` (csv_registry.dfy): the settings read at load time
  (`NEW_LINE`, `SC`, `DATA_DIR`, `IGNORE_EMPTY`), `getEnvVars` (push every
  variable name, then sort) and `getTables` (one table per `T_<X>` variable,
  name lower-cased, columns split on `,` and trimmed).
- `CsvEncoding` (csv_encoding.dfy): `getCsvLine` and the batch step of
  `writeToFile` (encode each entry, drop empty lines when `IGNORE_EMPTY` is
  on, join with `NEW_LINE`). A JavaScript value is either falsy or truthy with
  a text form, which is exactly what `obj[column] || ''` distinguishes; so `0`
  and `false` become empty fields.
- `CsvWriter` (csv_writer.dfy): the filesystem as a `FileStore` object holding
  a path-to-content map; `assureCsvFileExists`; and `WRITE_QUEUE` as a
  `WriteQueue` object whose pending jobs run head first, one at a time. Each
  job initializes its file, appends `NEW_LINE + payload`, and settles its
  caller's promise. Filesystem failures are inputs (`Faults`). The pure
  function `Replay` states what a run of the queue does, and the lemmas about
  it state what the engine promises: each job gets its own outcome, untargeted
  files are untouched, a table's file reads as header plus payloads in queue
  order, and each file evolves as if it had a queue of its own.
- `CsvService` (csv_service.dfy): `isObj` and `addCsvEntry`, i.e. the checks
  made before anything is written.
- `Logger` (logger.dfy): `getPadString` and `padString` with the module-level
  `toPadParts` width map as a `PadTable` object.

Assumptions and recorded behaviour of the code:

- The queue is modelled with its intended semantics: concurrency 1, jobs run
  in the order they were added, each to completion before the next. As
  written, the callback given to `WRITE_QUEUE.add` (app/csv.js:117-132) does
  not return its promise chain, so the queue counts each job as finished as
  soon as it has started, and two jobs' header checks and appends can
  interleave. The model takes the sequential semantics as an assumption; it
  does not model that race.
- The header line is joined with a literal `,` (app/csv.js:96) while data
  lines use the configured separator (app/csv.js:82). The model keeps this as
  written; `CsvWriter.HeaderIgnoresSeparator` shows its effect.
- Two variables that lower-case to the same table name (`T_A`, `T_a`) are
  not rejected at startup: both tables are kept and requests go to the first
  in sorted variable order (`CsvService.DuplicateNamesRegistry`,
  `CsvService.DuplicateNamesFirstWins`). Operations for listing, reading or
  deleting tables do not exist in this code and are not modelled.

Inputs that the code reads from its environment are parameters here:
`process.env` is a `map<string, string>`, `os.EOL` is `eol`, and the four
settings travel in a `Config`.

## Model

| member | source | states |
|---|---|---|
| `CsvRegistry.LoadConfig` | app/csv.js:6-9 | a set, non-empty `NEW_LINE`, `SEPARATE_CHAR` or `DATA_DIR` is used as is; an absent or empty one falls back to `os.EOL`, `,` and `/data` respectively; `IGNORE_EMPTY` defaults to on and otherwise is on exactly when its lower-cased value is `true` |
| `CsvRegistry.GetEnvVars` | app/csv.js:19-26 | the result lists every environment variable name exactly once, strictly ascending in the default sort order, and is the one such listing |
| `CsvRegistry.TableVars` | app/csv.js:46 | the filter keeps exactly the names starting with `T_`, and keeps a strictly sorted listing strictly sorted |
| `CsvRegistry.TableOf` | app/csv.js:47-51 | the table name is the variable name after `T_`, character by character lower-cased (no upper-case ASCII letter remains); there is one column per comma plus one, each the trimmed piece of the value |
| `CsvRegistry.GetTables` | app/csv.js:45-52 | the registry is the table of each `T_` variable taken in the sorted listing of all variable names |
| `CsvRegistry.RegistryShape` | app/csv.js:45-51 | exactly one table per `T_` variable: the registry's length equals the number of such variables, and their listing is strictly sorted |
| `CsvRegistry.RegistryNamesLowerCase` | app/csv.js:48 | no registry name contains an upper-case ASCII letter |
| `CsvEncoding.Fields` | app/csv.js:82 | one field per column, in column order; field i is the text of the value under column i, or empty when that value is absent or falsy |
| `CsvEncoding.GetCsvLine` | app/csv.js:79-85 | the accumulated string equals the field texts joined by the separator (a separator after every field but the last) |
| `CsvEncoding.CsvLineRoundTrip` | app/csv.js:79-85 | when no field text holds the (one-character) separator, splitting the line on it gives back each column's field text in column order |
| `CsvEncoding.CsvLineEmptyIff` | app/csv.js:82 | with a non-empty separator a line is empty exactly when the table has no column, or one column whose field is empty |
| `CsvEncoding.CsvLineAllEmpty` | app/csv.js:82 | a record with no usable value for any column encodes to the separator repeated (columns - 1) times |
| `CsvEncoding.CsvLineIgnoresOtherKeys` | app/csv.js:79-85 | keys that are not columns do not affect the line |
| `CsvEncoding.CsvLineExamples` | app/csv.js:79-85 | `[a,b]` with `{a:'1',b:'2'}` gives `1,2`; with `{a:'1'}` gives `1,`; a falsy value gives an empty field |
| `CsvEncoding.EncodeAll` | app/csv.js:110 | one line per entry, line i being entry i's encoding |
| `CsvEncoding.KeepNonEmpty` | app/csv.js:112 | the kept lines are all non-empty, are exactly the non-empty input lines, appear in their original relative order, and the number dropped is the number of empty input lines |
| `CsvEncoding.BatchLinesKept` | app/csv.js:110-114 | with filtering off every encoded line is kept; with it on the kept lines are a subsequence and an entry's line is dropped exactly when the table has at most one column and the entry no usable value for it |
| `CsvEncoding.WideBatchKeepsAll` | app/csv.js:110-112 | with two or more columns nothing is filtered: the batch has one line per entry |
| `CsvEncoding.NonEmptyKept` | app/csv.js:112 | filtering lines none of which is empty changes nothing |
| `CsvWriter.CsvPathInjective` | app/csv.js:93 | distinct table names give distinct file paths under the plain `dataDir + "/" + name + ".csv"` concatenation (see "Left out" for `path.join` normalisation) |
| `CsvWriter.HeaderIgnoresSeparator` | app/csv.js:96 | the header is comma-joined: to a reader splitting on another one-character separator that no column name holds it is one field, and with two or more columns it differs from the columns joined by that separator |
| `CsvWriter.EnsureHeader` | app/csv.js:92-98 | an existing file is left unchanged; an absent file is created holding exactly the comma-joined column names with no line terminator, unless that write fails, in which case the error is reported |
| `CsvWriter.EnsureHeaderIdempotent` | app/csv.js:92-98 | initializing a file a second time changes nothing, whatever the filesystem would answer |
| `CsvWriter.FileStore.Exists` | app/csv.js:32-39 | reports whether the path holds a file |
| `CsvWriter.FileStore.AppendFile` | app/csv.js:122 | on success the data is appended, creating an absent file; on failure the files are unchanged and the error is returned |
| `CsvWriter.WriteQueue.constructor` | app/csv.js:11 | the queue starts empty with nothing settled |
| `CsvWriter.WriteQueue.AssureCsvFileExists` | app/csv.js:92-98 | the store afterwards is what `EnsureHeader` prescribes, or unchanged when the error is returned |
| `CsvWriter.WriteQueue.WriteToFile` | app/csv.js:105-117 | exactly one job, carrying the batch's joined lines, is added at the back of the queue; the ticket is the position at which its promise will settle |
| `CsvWriter.ApplyJob` | app/csv.js:117-132 | one job changes only its table's file; it resolves only with its payload (no leading terminator) and rejects only with one of its own errors, leaving every existing file as it was; a failed header write for an absent file rejects with that error and writes nothing; for an existing file no header is written, so a header fault is ignored and the job rejects with the append error or appends `NEW_LINE` and the payload; when the header is written and the append then fails, the new file holds just the header; with no error the file becomes its old content, or else the header, followed by `NEW_LINE` and the payload |
| `CsvWriter.WriteQueue.RunNext` | app/csv.js:117-132 | the head job leaves the queue, the store changes as `ApplyJob` prescribes, and the job's outcome is appended to the settled promises |
| `CsvWriter.Replay` | app/csv.js:117-132 | a run of the queue settles exactly one promise per job |
| `CsvWriter.WriteQueue.RunAll` | app/csv.js:117-132 | running the queue to empty leaves the store and the settled promises exactly as the sequential head-first `Replay` of the pending jobs prescribes |
| `CsvWriter.ReplaySettlesEachJob` | app/csv.js:119-131 | each job's promise is resolved with its own payload or rejected with one of its own errors; a job without errors resolves whatever happened to earlier jobs |
| `CsvWriter.ReplayLeavesOtherFiles` | app/csv.js:117-132 | a file that no job targets keeps its content, or stays absent |
| `CsvWriter.ReplayOneTable` | app/csv.js:92-127 | jobs for one table that all succeed leave its file as the old content (or the header) followed by each payload, in queue order, each after a `NEW_LINE`; an empty payload still adds a bare `NEW_LINE` |
| `CsvWriter.ReplayLines` | app/csv.js:96-122 | with a one-character terminator found in neither the header nor any payload (each job carrying at most one line), the file splits into exactly the header followed by one entry per job in queue order |
| `CsvWriter.ReplayPerFile` | app/csv.js:117-132 | the final content of a file is what that file's own jobs alone, in their order, make of it, whatever jobs for other tables ran in between |
| `CsvService.IsObj` | app/csv.js:14 | a body counts as an object exactly when it is an object or an array; `null` and scalars do not |
| `CsvService.Names` | app/csv.js:62 | the names list has one entry per table, entry i being table i's name |
| `CsvService.FindIndex` | app/csv.js:69 | the index found is that of the first table with the name; none is found exactly when no table has it |
| `CsvService.Validate` | app/csv.js:62-69 | a request passes exactly when the table name is known and the body is an object or an array; an unknown table is answered 400 first, then a non-object body 400; a passing request uses the first table with that exact name, an array as the batch and a single object as a batch of one |
| `CsvService.AddCsvEntry` | app/csv.js:58-71 | a rejected request returns its error and leaves the queue unchanged; an accepted one enqueues exactly one job for the validated table and batch |
| `CsvService.UpperCaseNameUnknown` | app/csv.js:48-64 | a requested name holding an upper-case ASCII letter is always an unknown table |
| `CsvService.DuplicateNamesRegistry` | app/csv.js:45-51 | `T_A=x` and `T_a=y` yield two tables both named `a`, the `T_A` one first |
| `CsvService.DuplicateNamesFirstWins` | app/csv.js:62-69 | with two tables named `a`, a request for `a` uses the first |
| `JsString.SplitCount` | app/csv.js:49 | splitting on a character gives one more piece than the string has occurrences of it |
| `JsString.SplitJoin` | app/csv.js:49 | splitting the join of separator-free parts gives back the parts |
| `JsString.JoinSplit` | app/csv.js:49 | joining the pieces of a split with the separator gives back the string |
| `JsString.Trim` | app/csv.js:49 | a trimmed piece neither starts nor ends with white space, and a piece already so is kept |
| `JsString.TrimKeepsMiddle` | app/csv.js:49 | a trimmed piece is a contiguous slice of the original piece, and everything removed before and after it is white space |
| `JsString.ToLower` | app/csv.js:48 | same length, each character lower-cased, no upper-case ASCII letter left |
| `JsString.SortStrings` | app/csv.js:24 | the result is sorted and a permutation of the input |
| `JsString.SortedKeysUnique` | app/csv.js:24 | a set has at most one strictly ascending listing |
| `Logger.GetPadString` | app/logger.js:17-19 | exactly `count` space characters |
| `Logger.Widen` | app/logger.js:29-34 | the stored width for the name becomes at least the string's length and never less than before, equal to one of the two; every other name keeps its entry and width |
| `Logger.PadStep` | app/logger.js:28-45 | the width table is updated as `Widen` prescribes; left and right padding put spaces before or after the string to exactly the stored width; any other direction returns the string unchanged |
| `Logger.PadTable.PadString` | app/logger.js:28-45 | the in-place update of the width map (where a stored width 0 reads as falsy) and the returned string are exactly those of `PadStep` |
| `Logger.PadStepRepeat` | app/logger.js:29-41 | repeating a call with the same name and string returns the same text and leaves the table unchanged |
| `Logger.PadAllMonotone` | app/logger.js:29-34 | over any sequence of calls no stored width decreases and no name disappears |
| `Logger.PadAllCovers` | app/logger.js:29-35 | after any sequence of calls each name's width is at least the length of every string padded under it |

## Left out

- CsvEncoding.CsvLineRoundTrip: stated for a one-character separator; with a longer `SEPARATE_CHAR`, overlapping separators can split differently, and the model's `Split` handles one character only.
- CsvWriter.ReplayLines: stated for a one-character line terminator, for the same reason (a `\r\n` terminator is not covered).
- JsString.ToLower: lower-cases ASCII letters only; the full Unicode case mapping of `toLowerCase` is not modelled.
- JsString.SortStrings: orders by Unicode code point, whereas JavaScript compares UTF-16 code units; the two differ only for characters outside the Basic Multilingual Plane.
- Logger.PadStep: lengths count characters, whereas JavaScript's `length` counts UTF-16 code units.
- CsvWriter.FileStore.Exists: existence is exact; `fs.promises.access` failing for another reason (a permission error) would read as "absent" in the code.
- CsvWriter.FileStore.AppendFile: a failed append leaves the file unchanged; partial writes are not modelled.
- CsvWriter.CsvPathInjective: distinct names give distinct paths only under the concatenation model; in the program `path.join` normalises names holding `//`, `.` or `..` segments, so tables such as `a/b` and `a//b` (from `T_a/b` and `T_a//b`) share one file.
- CsvWriter.CsvPath: plain concatenation with `/`; the normalisation `path.join` performs is not modelled.
- The race caused by the unreturned promise in the queued callback (app/csv.js:117-132): the model assumes the intended one-job-at-a-time semantics; p-queue's promise scheduling is not modelled.
- `CsvService.AddCsvEntry` returns the ticket of its queued job; the HTTP response written once the job settles (the payload, or Koa's error answer on rejection) is the settled entry at that ticket, not a separate step of the model.
- Logging (app/csv.js:4, 12, 125-126), the winston logger set-up and `stringifyMessage` (app/logger.js:47-122): output formatting through foreign libraries.
- CsvEncoding.Fields: a column named after a member every object inherits (`constructor`, `toString`, `valueOf`, `hasOwnProperty`, `__proto__`, ...) and absent from the record reads, in the code, as that inherited member, which is truthy, so the field becomes its text (`[object Object]` for `__proto__`); the model sees only own properties and writes `""` there, and CsvEncoding.CsvLineAllEmpty and CsvEncoding.BatchLinesKept hold under that same reading.
- JavaScript's string coercion of arbitrary values: abstracted as a value that is falsy or carries its text.
- Array bodies whose elements are `null` or not objects: batch elements are records in the model.
- app/server.js (routing, body parsing, listening) and app/auth.js (token check): framework plumbing outside the engine.
- Reading `process.env` and `os.EOL`: both are parameters.
