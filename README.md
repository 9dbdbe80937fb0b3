# Near-miss incident log: report store, filter engine and server store

This project models the core of a small near-miss safety log. Field staff record incidents and browse the log. They can filter it and export or import it as JSON. A server mirrors the collection on a best-effort basis.

The model has two halves, both over one ordered list of report records. The record fields keep their original names: `id`, `tanggal` (ISO date), `lokasi`, `kategori`, `deskripsi`, `risiko`, `fotoBase64`, `tindakLanjut` (follow-up done) and `createdAt`.

- **Client** (`App.jsx`). The `NearMissApp` class (module `ClientApp`) holds the component state: the collection `laporan`, the entry form and the filter criteria. There is one method per event handler. Each handler's list update is a function on `seq<Report>`, namely the updater passed to `setLaporan`:
  - `Submission` prepends a record;
  - `RemoveId` deletes by id;
  - `ToggleAll` toggles the follow-up flag;
  - import is concatenation.

  The query engine (module `FilterEngine`) provides `ApplyFilter`, a pure, order-preserving conjunctive filter, and `LokasiOptions`, the de-duplicated location list.
- **Server** (`index.js`). The `ReportDb` class (module `ServerStore`) holds the document `db.data`, that is `{ reports: [...] }`. There is one method per endpoint, and each returns a status and a body. PUT followup finds its target with a linear search, `Find`, which is proved equal to the first-match function `FirstWithId`.
- Module `Mirror` relates the two halves. The client toggles **every** record with an id, while the server flips only the **first** one. The two agree when ids are unique and diverge when an id occurs twice. The server keeps the id the client generated, so a successful POST prepends the same record the offline fallback would.

Inputs from outside the program are parameters:
- the server's answer to the client's POST: `RemoteResult = Ok(saved) | Fail`;
- the user's answer to `confirm()`: a `bool`;
- the clock readings `Date.now()` and `toISOString()`: string parameters (`id`, `createdAt`, `today`, `now`);
- the chosen import file, already parsed: `ImportFile`;
- the contents of local storage at start-up: `Option<seq<Report>>`.

The filter's text match uses ASCII lower-casing (`Text.Lower`) and substring search (`Text.Includes`). Its date bounds use JavaScript's `<` on strings (`Text.LexLess`), which compares character by character. It is proved equal to the comparison at the first differing position, and proved to be a strict total order.

Three facts about the code shape the model:
- a delete removes every record with the id, not only the first (App.jsx:103, index.js:43);
- locations and categories are free strings: the dropdowns offer Indonesian defaults (App.jsx:159-160), but neither the form nor the filter restricts what a record holds;
- the server's reset handler empties the list without calling `db.read()` first (index.js:59-63).

## Model

| member | source | states |
|---|---|---|
| Text.Lower | App.jsx:150-151 | lower-casing keeps the length and lower-cases each character (ASCII letters only) |
| Text.Includes | App.jsx:151 | `includes` is true exactly when the needle occurs at some position of the text |
| Text.LexLess | App.jsx:153-154 | `a < b` holds exactly when, at the end of the common prefix, `a` has ended while `b` goes on, or both go on and `a`'s character is the smaller |
| Text.LexLessTrichotomy | App.jsx:153-154 | of `a < b`, `a == b` and `b < a` on strings, exactly one holds |
| Reports.Flip | App.jsx:108 | the follow-up flag is negated and every other field is kept |
| Reports.Filter | App.jsx:146-156 | `filter` returns an order-preserving subsequence holding exactly the accepted elements, each as often as in the input |
| Reports.RemoveId | App.jsx:103 | deleting id X keeps, in order and with their multiplicities, exactly the records whose id is not X |
| Reports.RemoveAbsentId | index.js:43 | deleting an id that no report carries changes nothing |
| Reports.RemoveIdIdempotent | index.js:43 | deleting the same id twice equals deleting it once |
| FilterEngine.SearchText | App.jsx:151 | the searched text contains the description, the location and the category |
| FilterEngine.Matches | App.jsx:147-155 | the initial criteria accept every item; an accepted item lies on or after `dari` and on or before `sampai`, wherever those are set |
| FilterEngine.ApplyFilter | App.jsx:145-157 | the visible list is an order-preserving subsequence of the items; an item is kept iff location, category, text and both date bounds all match |
| FilterEngine.DefaultCriteriaShowAll | App.jsx:23-29 | the initial criteria (`Semua`, empty text and dates) show the whole collection unchanged |
| FilterEngine.ApplyFilterIdempotent | App.jsx:162 | re-applying the same criteria to the visible list changes nothing |
| FilterEngine.ApplyFilterAppend | App.jsx:120 | the visible list after prepending an imported array is the visible part of the array followed by the visible part of the old list |
| FilterEngine.DateBoundsAreWindow | App.jsx:153-154 | the two date tests keep exactly the items with `dari <= tanggal <= sampai`, wherever a bound is set |
| FilterEngine.SearchIgnoresQueryCase | App.jsx:149-152 | any query and its lower-cased form select the same items |
| FilterEngine.LocationScenario | App.jsx:147 | one report in "Gudang" is shown under location "Gudang" and hidden under "Kantor" |
| FilterEngine.Dedup | App.jsx:159 | `Array.from(new Set(s))` has no duplicates and exactly the elements of `s` |
| FilterEngine.Lokasis | App.jsx:159 | `map` keeps the length and gives each report's location at its position |
| FilterEngine.LokasiOptions | App.jsx:159 | the location options have no duplicates and are exactly the four defaults plus every report's location |
| FilterEngine.LokasiOptionsStartWithDefaults | App.jsx:159 | the options begin with Gudang, Produksi, Kantor, Lapangan in that order |
| FilterEngine.LokasiOptionsFirstOccurrenceOrder | App.jsx:159 | the options are ordered by where each first occurs in the defaults followed by the reports' locations |
| ClientApp.DefaultForm | App.jsx:14-21 | the form starts with today's date, empty location and description, no photo, and the first category (`Operasional`) and first risk level (`Rendah`) the dropdowns offer |
| ClientApp.NewReport | App.jsx:58-68 | the local record copies every form field, carries the given id and createdAt, and starts with follow-up false |
| ClientApp.Submission | App.jsx:54-86 | an empty location or description rejects the form; otherwise the prepended record is the server's record on success, and on failure the local record: form fields copied, follow-up false, the given id and createdAt |
| ClientApp.ToggleAll | App.jsx:108 | the length is kept; every record with the id has its flag flipped and nothing else changed; every other record is unchanged |
| ClientApp.ToggleAllInvolution | App.jsx:108 | toggling the same id twice restores the collection |
| ClientApp.ToggleAllKeepsMatches | App.jsx:108 | a toggle does not change which positions the filter accepts |
| ClientApp.NearMissApp.constructor | App.jsx:4-29 | the collection is the stored one, or empty when absent or unparsable; form and filter start at their defaults |
| ClientApp.NearMissApp.HandleChange | App.jsx:37-40 | the named form field takes the value; nothing else changes |
| ClientApp.NearMissApp.HandleFotoChange | App.jsx:42-50 | a chosen image becomes the form's photo; no file changes nothing |
| ClientApp.NearMissApp.ResetForm | App.jsx:217 | the form returns to its defaults for today; the collection is untouched |
| ClientApp.NearMissApp.ChangeFilter | App.jsx:237-253 | the named criterion takes the value; collection and form are untouched |
| ClientApp.NearMissApp.TambahLaporan | App.jsx:52-97 | a rejected form alerts and changes nothing; an accepted one grows the collection by exactly the `Submission` record at index 0, the old records following in order, and resets the form |
| ClientApp.NearMissApp.HapusLaporan | App.jsx:99-104 | a confirmed delete leaves `RemoveId` of the old collection; a declined one changes nothing |
| ClientApp.NearMissApp.ToggleTindakLanjut | App.jsx:106-110 | the collection becomes `ToggleAll` of the old one; form and filter untouched |
| ClientApp.NearMissApp.ImporJSON | App.jsx:112-127 | an array is prepended as `data + old` with no dedup or checks and reports success; no file, unparsable JSON or a non-array leaves the collection unchanged, with the matching alert |
| ClientApp.NearMissApp.EksporJSON | App.jsx:129-137 | the exported document is the whole collection |
| ClientApp.NearMissApp.ResetData | App.jsx:139-143 | a confirmed reset empties the collection whatever the server does; a declined one changes nothing |
| ClientApp.NearMissApp.Tampil | App.jsx:162 | the rendered list holds exactly the collection's reports the current criteria accept, in order |
| ClientApp.ExportThenImport | App.jsx:120 | importing an exported collection into an empty one reproduces it exactly |
| ServerStore.FirstWithId | index.js:51 | `find` yields the position of the first report with the id, or none exactly when no report has it |
| ServerStore.FlipFirst | index.js:51-53 | the length is kept; only the first report with the id has its flag flipped; every other report is unchanged |
| ServerStore.FlipFirstInvolution | index.js:53 | two PUT followups on the same id restore the list |
| ServerStore.AssignId | index.js:34 | a truthy id is kept, a falsy one replaced by the generated id; no other field changes |
| ServerStore.ReportDb.constructor | index.js:15-18 | the document is what the file held |
| ServerStore.ReportDb.InitDB | index.js:17-21 | an existing document is kept; `{ reports: [] }` is created only when there is none |
| ServerStore.ReportDb.Get | index.js:26-29 | GET answers 200 with the stored list and changes nothing |
| ServerStore.ReportDb.Post | index.js:31-38 | POST prepends the report with its id assigned as `AssignId` says, the rest following in order, and answers 201 with exactly the stored head |
| ServerStore.ReportDb.Delete | index.js:40-46 | DELETE leaves `RemoveId` of the old list and always answers 204 |
| ServerStore.ReportDb.Find | index.js:51 | the linear search returns `FirstWithId` of the stored list |
| ServerStore.ReportDb.PutFollowup | index.js:48-57 | on a known id the list becomes `FlipFirst` of the old one and the flipped report is returned with 200; on an unknown id the answer is 404 and the list is unchanged |
| ServerStore.ReportDb.Reset | index.js:59-63 | reset empties the list and answers `{ok: true}` |
| Mirror.ToggleAgreesWhenIdsUnique | index.js:51-53 | with unique ids the client's toggle-all equals the server's flip-first |
| Mirror.ToggleDivergesOnDuplicateId | App.jsx:108 | when two reports share the id, the client's result and the server's result differ |
| Mirror.EchoedSubmissionIsLocalRecord | index.js:34 | the server keeps the client's non-empty id, so a successful POST prepends the same record as the offline fallback |
| Mirror.SubmissionKeepsUniqueIds | App.jsx:58-68 | a submission with an id no report has keeps the ids unique |
| Mirror.DeleteKeepsUniqueIds | App.jsx:103 | deleting keeps unique ids unique |
| Mirror.ImportOfOwnExportDuplicatesIds | App.jsx:120 | importing a non-empty collection into itself duplicates its ids: import does not keep ids unique |

## Left out

- Rendering, JSX markup and the `useEffect` that writes the collection to local storage. Persistence is "the collection after each operation".
- `JSON.parse` and `JSON.stringify`. Records are values, the import file arrives already parsed, and unparsable or absent local storage arrives as `None`. A stored value that parses to something other than an array is not modelled.
- Browser facilities. `FileReader`, `Blob`/`URL.createObjectURL` and the download anchor are left out, and so are the export file name and the clearing of the file input. `alert` is modelled as the returned message, and `confirm` as a boolean parameter.
- `fetch` and HTTP transport. The fire-and-forget DELETE, PUT and reset calls from the client cannot change client state, so they are not modelled. The POST's outcome is a parameter.
- Clock reads (`Date.now()`, `new Date().toISOString()`). They are parameters, so the model does not know that generated ids are decimal strings or that they usually differ.
- Full Unicode `toLowerCase`. Lower-casing covers ASCII letters only.
- Text.LexLess: compares Unicode code points, while JavaScript compares UTF-16 code units. The two orders differ only for strings with characters outside the Basic Multilingual Plane; ISO dates are unaffected.
- JavaScript's dynamic typing. An absent, null or otherwise falsy `id` is modelled as `""`. Imported records with missing fields or non-string values are not modelled: every record has all fields with their declared types.
- Server infrastructure: lowdb file reads and writes (each handler's `db.read()`/`db.write()`), Express routing and its parameters, CORS, the body-size limit, static client serving and `app.listen`. Each handler acts on the in-memory document.
- ServerStore.ReportDb handlers require that the document exists (`db.data` non-null). In the source, a handler that runs before initialisation throws a TypeError inside an async Express 4 handler; the promise rejection goes unhandled and no response is sent. That path is not modelled.
- Concurrency between requests, and the client's asynchronous ordering. Each request and each handler is atomic.
