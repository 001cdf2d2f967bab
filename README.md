# FHIR medication and clinical-note importer, modelled in Dafny

The repository reads FHIR R5 resources, already parsed from JSON, and turns
them into rows of a SQLite database (`healthcare.db`). This project models
the three parts of it that carry logic.

- **Medication importers** (`import_json_data.py`). `import_medication`,
  `import_medication_request` and `import_medication_administration`:
  - each looks up the resource's external id and skips it when the id is
    already in its table;
  - each reads optional fields out of nested JSON: `coding[0].display`,
    contained resources, `#`-local references, the id after the last `/`;
  - each inserts one row.
- **DocumentReference importer** (`import_document_reference.py`):
  - the input-shape normalisation in `main`: a Bundle, one resource, or a list;
  - `import_categories`: category de-duplication under the UNIQUE
    constraint on `category_code`;
  - `get_category_id`;
  - `import_document_references`: one `note` row and at most one
    `note_version` row per document, with commit or rollback per document.
- **Content resolver** (`extract_binary_content.py`):
  - `fetch_binary_content`: a metadata request, a request for the declared
    content type, then a fixed list of fallback MIME types;
  - `update_note_with_binary_content`: stores the body as base64 text
    (section 4 of RFC 4648) together with its content type;
  - `process_url_references`: rewrites every `URL: ` placeholder and
    counts successes and errors.

## How the model is built

- **Files and modules:**
  - `pyjson.dfy` (module `PyJson`): parsed JSON (`Json`), and the Python
    operations the importers apply to it (`k in x`, `x[k]`, `x[0]`,
    `x.get(k, d)`, iteration, truthiness, `str(x)`, `startswith`,
    `split('/')[-1]`).
    - Any of these that can raise returns `Py<T>`, which is `Ok(value)`
      or `Raised`.
    - `Path`/`PathOr` give the reference reading of "the value at
      `a.b[0].c`, or null". The field-extraction rules are proved against it.
  - `schema.dfy` (module `Schema`): the row types and the `Database` class.
    - The class holds one `seq` field per table. A row's surrogate id is
      its index plus one.
    - `Valid()` is the database invariant: category codes are unique, and
      note/version links are consistent.
  - `base64.dfy` (module `Base64`): the RFC 4648 encoder, and a strict
    decoder that inverts it.
  - `medication.dfy`, `document.dfy`, `content.dfy`: one module per source
    file.
- **Loops become methods.** Every loop in the source is a method with a
  `while` loop. The method is proved equal to a fold function. The
  properties are then proved about that fold.
- **Database writes become methods on `Database`.** Each states its whole
  new state and what it leaves unchanged.
- **Parameters stand in for the outside world.**
  - HTTP is the oracle `http(url, accept)`. It returns a reply (status,
    body, parsed JSON or none) or `Threw`.
  - Python's `base64.b64decode(...).decode('utf-8')` on `attachment.data`
    is the partial function `decode`.

## Model

| member | source | states |
|---|---|---|
| PyJson.AfterLastSplit | import_json_data.py:94-95 | `s.split('/')[-1]`: the result has no `/`, is a suffix of `s`, equals `s` when `s` has no `/`, and otherwise follows a `/` |
| MedicationImport.ExternalId | import_json_data.py:22-28 | the read succeeds exactly when the document has key `id` with a bindable value, and then gives that value; a missing key or an unbindable id raises |
| MedicationImport.CodedDisplayIsPath | import_json_data.py:29-34 | `x[k]['coding'][0]['display']` guarded by `k in x and 'coding' in x[k]` is the value at that path, or null when the guard fails |
| MedicationImport.IngredientIsPath | import_json_data.py:39-42 | the ingredient is the display at `ingredient[0].item.concept.coding[0]`, or null |
| MedicationImport.StrengthRule | import_json_data.py:43-49 | strength is non-null exactly when the numerator's `value` and `code` are both truthy, and is then `"<value> <code>"` |
| MedicationImport.OrganizationStepMatches | import_json_data.py:57-59 | one loop step sets the manufacturer to the contained item's `name` exactly when the item is an Organization with the wanted id, else keeps it |
| MedicationImport.OrganizationScanNoMatch | import_json_data.py:57-59 | when no contained item matches, the manufacturer keeps its initial value |
| MedicationImport.OrganizationScanLastWins | import_json_data.py:57-59 | when several Organizations match, the `name` of the last one wins |
| MedicationImport.ScanContainedOrganizations | import_json_data.py:57-59 | the loop over `contained` computes the last-wins scan, including its exceptions |
| MedicationImport.Manufacturer | import_json_data.py:51-59 | the manufacturer extraction, loop included, computes the manufacturer rule |
| MedicationImport.ManufacturerNeedsLocalReference | import_json_data.py:53-55 | a holder reference that is absent or does not start with `#` gives a null manufacturer |
| MedicationImport.ManufacturerIsLastOrganization | import_json_data.py:53-59 | with a `#id` reference, the manufacturer is the `name` of the last contained Organization whose id is the reference without `#` |
| MedicationImport.MedicationStepMatches | import_json_data.py:84-88 | one loop step takes the id from a contained Medication and the display from a contained item that has `code.coding`; anything else keeps the values |
| MedicationImport.MedicationScanLastId | import_json_data.py:84-86 | `medication_id` is the id of the last contained Medication, and keeps its initial value when there is none |
| MedicationImport.MedicationScanLastDisplay | import_json_data.py:87-88 | the medication display comes from the last contained item with `code.coding`, and keeps its initial value when there is none |
| MedicationImport.ScanContainedMedications | import_json_data.py:84-88 | the loop over `contained` computes the last-wins scan, including its exceptions |
| MedicationImport.FindContainedMedication | import_json_data.py:83-88 | the extraction guarded by `'contained' in d` computes the contained-medication rule |
| MedicationImport.ContainedMedicationFromList | import_json_data.py:83-88 | without `contained`, id and display are null; with a list, they are its last-wins scan |
| MedicationImport.ReferenceIdIsTail | import_json_data.py:94-95 | `requester` and `encounter` become the text after the last `/` of their `reference`, or null when the key is absent |
| MedicationImport.RequestDosageReadsInstruction | import_json_data.py:111-113 | all dosage and timing fields are null unless `dosageInstruction` is a non-empty list; otherwise they are read from its first element |
| MedicationImport.RequestDosageIsPath | import_json_data.py:111-125 | text, route, method, and quantity with unit are the values at their paths under `dosageInstruction[0]`; quantity comes only from `doseAndRate[0].doseQuantity` |
| MedicationImport.RequestDoseIsPath | import_json_data.py:121-125 | quantity and unit are the `value` and `code` of `doseAndRate[0].doseQuantity`, or null |
| MedicationImport.QuantityIsPath | import_json_data.py:124-125 | a quantity is the `value` and `code` of its dict, null where missing |
| MedicationImport.RequestTimingIsPath | import_json_data.py:127-134 | frequency, period and unit come from `timing.repeat`, and start and end only from `timing.repeat.boundsPeriod` |
| MedicationImport.PeriodIsPath | import_json_data.py:132-134 | a period is the `start` and `end` of its dict, null where missing |
| MedicationImport.RequestTimingFromInstruction | import_json_data.py:127-134 | the request's timing is read at `dosageInstruction[0].timing.repeat`, with bounds from `boundsPeriod` |
| MedicationImport.PerformerIdIsTail | import_json_data.py:178 | the practitioner is the text after the last `/` of `performer[0].actor.reference.reference` when `performer` is truthy, else null |
| MedicationImport.ActorReferenceTailIsPath | import_json_data.py:178 | the nested actor reference must be a string, and its tail is taken |
| MedicationImport.EffectivePeriodIsPath | import_json_data.py:185-187 | effective start and end are read only from the key `occurencePeriod`, as spelled |
| MedicationImport.OccurrencePeriodSpellingIgnored | import_json_data.py:185-187 | for every administration that extracts, lacking the misspelled key `occurencePeriod` means null effective start and end, whatever else the document holds |
| MedicationImport.OccurrencePeriodWitness | import_json_data.py:185-187 | an administration that carries a start under the correctly spelled `occurrencePeriod` still imports with no period |
| MedicationImport.AdministrationDosageIsPath | import_json_data.py:196-208 | the administration dosage is read under `dosage`, and quantity and unit only from `dosage.dose` |
| MedicationImport.ImportMedication | import_json_data.py:17-67 | skipped iff the id is non-null and already in `medication` (`= NULL` never matches, so a null id is inserted again); one row appended iff the id is new and the row extracts and binds; otherwise no change; the other tables never change |
| MedicationImport.ImportMedicationRequest | import_json_data.py:70-151 | the same guarded single insert into `medication_request` |
| MedicationImport.ImportMedicationAdministration | import_json_data.py:154-225 | the same guarded single insert into `medication_administration` |
| DocumentImport.FilterDocuments | import_document_reference.py:236 | the list comprehension succeeds iff every item is a dict, and keeps exactly the DocumentReference items |
| DocumentImport.FilterDocumentsAppend | import_document_reference.py:236 | filtering a concatenation is concatenating the filtered parts, so order is kept |
| DocumentImport.EntryResource | import_document_reference.py:227-228 | an entry contributes its `resource` exactly when that resource is a DocumentReference; a non-dict entry or resource raises |
| DocumentImport.BundleDocuments | import_document_reference.py:227-228 | the Bundle comprehension yields exactly the DocumentReference resources of the entries |
| DocumentImport.BundleDocumentsOne | import_document_reference.py:227-228 | one entry gives its resource if that is a DocumentReference, nothing if it is not, and raises where reading the resource raises |
| DocumentImport.BundleDocumentsAppend | import_document_reference.py:227-228 | the comprehension over two runs of entries is the first's documents followed by the second's, so order and repetitions are kept |
| DocumentImport.Normalize | import_document_reference.py:224-238 | every normalised item is a DocumentReference |
| DocumentImport.NormalizeShapes | import_document_reference.py:224-238 | a Bundle with an `entry` list gives exactly the entry-by-entry comprehension, in order; a list gives exactly its DocumentReference items, in order; a single DocumentReference gives a one-element list; anything else gives the empty list |
| DocumentImport.BundleShape | import_document_reference.py:224-228 | for a Bundle with an `entry` list, the documents are the entry-by-entry comprehension in entry order, and a value is among them exactly when it is the `resource` of some entry and is a DocumentReference |
| DocumentImport.AddCodingMeets | import_document_reference.py:56-57 | a coding contributes its (code, display) pair exactly when it has both keys |
| DocumentImport.AddCodingsMeets | import_document_reference.py:55-57 | the inner loop adds the pairs of all codings of a category |
| DocumentImport.AddCategoryMeets | import_document_reference.py:54-57 | a category contributes its codings only when `coding` is a list |
| DocumentImport.AddCategoriesMeets | import_document_reference.py:53-57 | the middle loop adds the pairs of all categories of a document |
| DocumentImport.AddDocumentMeets | import_document_reference.py:52-57 | a document contributes only when `category` is a list |
| DocumentImport.AddDocumentsMeets | import_document_reference.py:51-57 | the outer loop adds the pairs of every document |
| DocumentImport.CollectCategoriesIsDocumentSet | import_document_reference.py:50-57 | the collected set is the set of (code, display) pairs of `category[*].coding[*]` that have both keys |
| DocumentImport.CollectCategoryPairs | import_document_reference.py:50-57 | the three nested loops compute the collected set, and raise where Python raises |
| DocumentImport.FirstCodingCollected | import_document_reference.py:50-57 | a document's first category coding with code and display is among its collected pairs |
| DocumentImport.InsertCategory | import_document_reference.py:61-69 | a pair sqlite3 cannot bind raises and changes nothing; otherwise the insert succeeds iff the code is not yet in the table, appends exactly that row, and keeps codes unique |
| DocumentImport.InsertCategories | import_document_reference.py:60-69 | the loop raises iff some pair cannot be bound, having counted no more than the new codes; otherwise every pair was offered and the count is the number of rows appended |
| DocumentImport.ImportCategories | import_document_reference.py:43-79 | an exception while collecting gives 0 and no change; a pair that cannot be bound rolls everything back yet returns the partial count, at most the number of new codes; otherwise the count is the number of collected codes not in the table before, every collected code is then in the table, and new rows come from the collected pairs; a second run adds nothing, and codes stay unique |
| DocumentImport.CategoryIdOf | import_document_reference.py:82-99 | a category id is found iff the code is bindable, non-null and in the table; it is the id of the first row with that code |
| DocumentImport.FirstWithCode | import_document_reference.py:87-93 | `fetchone()` returns the first row with the code, or none when no row has it |
| DocumentImport.CategoryIdUnique | import_document_reference.py:87-93 | with unique codes, the found id is the only row with that code |
| DocumentImport.CategoryCodeIsPath | import_document_reference.py:124-129 | the code looked up is the one at `category[0].coding[0].code`, or null |
| DocumentImport.CategoryFoundAfterImport | import_document_reference.py:124-129 | once the categories are imported, a document whose first coding has a truthy, bindable code and a display finds a category id |
| DocumentImport.TypeCodingIsPath | import_document_reference.py:117-121 | the type coding read is `type.coding[0]` |
| DocumentImport.TypeCodingAbsent | import_document_reference.py:117-121 | when the guard fails, there is no `type.coding[0]` |
| DocumentImport.NoteTypeIsPath | import_document_reference.py:117-121 | the note type and its code are the `display` and `code` of `type.coding[0]`, or null |
| DocumentImport.TailIfPrefixed | import_document_reference.py:135-136 | a non-null reference id is a string without `/` |
| DocumentImport.PrefixedTailIsPath | import_document_reference.py:134-136 | the id is the text after the last `/` of `reference` when it starts with the prefix; a reference without the prefix, or no reference, gives null |
| DocumentImport.EncounterIdIsPath | import_document_reference.py:132-136 | `encounter_id` is taken from `context.encounter[0].reference` only when it starts with `Encounter/` |
| DocumentImport.AuthorIdIsPath | import_document_reference.py:172-176 | the practitioner is taken from `author[0].reference` only when it starts with `Practitioner/` |
| DocumentImport.NoteRowOf | import_document_reference.py:144-149 | a new note has no current version |
| DocumentImport.NoteRowIsPath | import_document_reference.py:112-149 | every field of the note row is the value at its document path, with the category id looked up from the first coding |
| DocumentImport.NoteTextRule | import_document_reference.py:160-169 | `note_text` is the decoded `data`, else the raw `data`; without `data` it is exactly `"URL: " + str(url)`; with neither it is null |
| DocumentImport.VersionFieldsIsPath | import_document_reference.py:153-183 | a version is written iff `content[0].attachment` exists, with its note text and the author's practitioner id |
| DocumentImport.CommitWritesVersion | import_document_reference.py:144-192 | a committed document adds one note; with an attachment it also adds exactly one version, numbered 1, which becomes the note's current version |
| DocumentImport.ApplyKeepsConsistent | import_document_reference.py:144-197 | one document's outcome keeps note/version links consistent |
| DocumentImport.ImportKeepsConsistent | import_document_reference.py:109-197 | the document loop keeps note/version links consistent |
| DocumentImport.ImportCounts | import_document_reference.py:105-186 | tables only grow; `versions_added` is exactly the number of versions written; `notes_added` is at least the number of notes kept |
| DocumentImport.RolledBackNoteIsCounted | import_document_reference.py:150-197 | any document that fails after its note insert leaves the tables as they were yet adds one to `notes_added` |
| DocumentImport.RolledBackWitness | import_document_reference.py:150-197 | a document whose `content` list starts with a number (not a dict) passes the note insert, then raises and takes that rolled-back path |
| DocumentImport.ImportAppend | import_document_reference.py:109-197 | importing `a + b` is importing `a`, then `b` from where `a` left off: a failure rolls back only its own document |
| DocumentImport.FailedDocumentLeavesTables | import_document_reference.py:195-197 | a document that raises leaves both tables as they were |
| DocumentImport.ReimportDuplicates | import_document_reference.py:144-149 | there is no duplicate guard: a committed document imported twice gives two notes with the same external id |
| DocumentImport.ImportDocument | import_document_reference.py:110-197 | one loop iteration writes the tables and counters that the document's outcome prescribes |
| DocumentImport.ImportDocumentReferences | import_document_reference.py:102-206 | the loop computes the document fold, stopping at a non-dict document; categories and the medication tables are unchanged |
| DocumentImport.RunImport | import_document_reference.py:224-246 | a normalisation error writes nothing; otherwise categories are imported (counted and complete), then documents; an unbindable category pair leaves the category table unchanged; `Valid()` is preserved |
| ContentResolver.ProbeRule | extract_binary_content.py:68-79 | the probes are tried in list order; the result is the first probe answered with 200, with that probe's MIME type; every probe is tried when none answers 200 |
| ContentResolver.AttemptOrder | extract_binary_content.py:27-76 | requests go in the order `application/fhir+json`, then the declared type (only after a parsed 200), then a prefix of the seven fallback types; at most 9 in all |
| ContentResolver.FirstSuccess | extract_binary_content.py:24-82 | content is returned iff the last request sent got 200, and it is that request's body and Accept value; every earlier request was answered, none with 200 after the first; failing without an exception means every request was sent |
| ContentResolver.DeclaredTypeWins | extract_binary_content.py:34-49 | when metadata and content both answer 200, the result is the body with the declared type, `application/octet-stream` when `contentType` is missing |
| ContentResolver.FetchBinaryContent | extract_binary_content.py:24-82 | the method returns the fetch rule's result and sends exactly the request sequence that `AttemptOrder` describes |
| ContentResolver.ProbeCommonTypes | extract_binary_content.py:58-79 | the fallback over the fixed list of seven MIME types returns the probe rule's result for that list and sends exactly its requests |
| ContentResolver.ProbeTypes | extract_binary_content.py:68-76 | the `for mime_type` loop with its early return computes the probe rule for any list and sends exactly the requests the rule names |
| Base64.EncodeLength | extract_binary_content.py:91 | the encoding has four characters per started group of three bytes |
| Base64.EncodeAlphabet | extract_binary_content.py:91 | the encoding uses only `A-Za-z0-9+/=` |
| Base64.Value | extract_binary_content.py:91 | a character's 6-bit value maps back to that character |
| Base64.DecodeEncode | extract_binary_content.py:91 | the strict decoder recovers the bytes from their encoding |
| ContentResolver.SetContent | extract_binary_content.py:94-99 | the UPDATE changes `note_text` and `content_type` of the row with the given `version_id` only |
| ContentResolver.UpdateNoteWithBinaryContent | extract_binary_content.py:85-106 | returns True iff the content type binds; the row gets the base64 text and the type; on failure nothing changes; the other tables never change |
| ContentResolver.StripStart | extract_binary_content.py:136 | removes exactly the leading Python whitespace |
| ContentResolver.StripEnd | extract_binary_content.py:136 | removes exactly the trailing Python whitespace |
| ContentResolver.RemoveAllAbsent | extract_binary_content.py:136 | `replace('URL: ', '')` leaves text without `URL: ` unchanged |
| ContentResolver.PlaceholderRoundTrip | extract_binary_content.py:117-136 | the placeholder `"URL: " + url` is selected, and the URL extracted from it is `url` again, for a stripped url without `URL: ` in it |
| ContentResolver.EncodedNotPlaceholder | extract_binary_content.py:91-121 | base64 text never matches `LIKE 'URL: %'`, so a resolved row is not selected again |
| ContentResolver.SelectUrlRows | extract_binary_content.py:117-124 | every selected row is a version of an existing note whose text matches the placeholder pattern, and carries that text |
| ContentResolver.SelectUrlRowsComplete | extract_binary_content.py:117-124 | every version of an existing note whose text matches the placeholder pattern is among the selected rows |
| ContentResolver.SelectUrlRowsIncreasing | extract_binary_content.py:117-124 | the selected rows come in strictly increasing version order, so no version is selected twice |
| ContentResolver.ResolveStoresBase64 | extract_binary_content.py:141-146 | whatever the resolver stores is not a placeholder |
| ContentResolver.RunCounts | extract_binary_content.py:127-153 | successes plus errors is the number of selected rows, and successes are the resolved rows |
| ContentResolver.RunIsResolveAll | extract_binary_content.py:130-150 | the row-by-row loop equals resolving each selected row independently |
| ContentResolver.ResolveIdempotent | extract_binary_content.py:117-150 | with a resolver that stores no placeholder, a second pass changes nothing |
| ContentResolver.ResolvedRowsStay | extract_binary_content.py:117-150 | a row the first pass resolved is never touched by a later pass, whatever the server answers then |
| ContentResolver.RerunChangesNothing | extract_binary_content.py:111-157 | re-running `process_url_references` against the same server leaves the versions as the first run left them |
| ContentResolver.ResolveKeepsConsistent | extract_binary_content.py:94-99 | resolving placeholders keeps note/version links consistent |
| ContentResolver.ProcessRow | extract_binary_content.py:131-150 | one iteration updates the row iff a non-empty body with a bindable type was fetched for its extracted URL, stores exactly that outcome, and changes nothing else |
| ContentResolver.ResolveRows | extract_binary_content.py:130-150 | the loop over the selected rows leaves the version table and the two counters exactly as the row-by-row fold over those rows does, and leaves the other tables unchanged |
| ContentResolver.RunResult | extract_binary_content.py:127-153 | the fold over the selected rows counts each row once, counts the resolved rows as successes, yields the per-row resolution of the version table and keeps notes and versions linked |
| ContentResolver.ProcessUrlReferences | extract_binary_content.py:111-157 | success + errors equals the number of selected rows; the versions become the resolution of every selected row; other tables are unchanged; `Valid()` is preserved |

## Left out

- Files, logging, `print` and `main` of `import_json_data.py` are not modelled. This covers JSON file loading, the `os.path.exists` check and the log messages. The importers take parsed JSON, and the returned counters are kept.
- `ensure_tables_exist`, `ensure_content_type_column` and `db_connect.py` (schema DDL) are not part of this model. The database starts from the empty tables of `Database`'s constructor.
- The schema SQL is not part of this model. The `note_version` insert names its column `practioner_id`, and the model stores that value in `VersionRow.practitionerId`.
- JSON numbers are integers only. Floating-point values are not modelled. sqlite3 binds integers of 64 bits; a wider one raises OverflowError, and `Bindable` rejects it.
- A JSON object holds each key once. Where the text repeats a key, `json.load` keeps the last value; the model starts from the dict it builds, not from the text.
- ImportCategories: when a pair cannot be bound, the count returned depends on Python's set iteration order, so the model bounds it by the number of new codes instead of fixing it.
- Some SQLite behaviour is left out:
  - type affinity is not modelled;
  - NULL is not distinct under UNIQUE (two NULL category codes conflict in the model);
  - `lastrowid` is modelled as the row's index plus one, so rowids are dense;
  - SELECT results come in table order.
- `IsPlaceholder` follows SQLite's LIKE: `URL: ` matches with ASCII letters compared without case. Unicode case folding is not modelled.
- Python's `strip()` is modelled with the Unicode whitespace set of `str.isspace`. Other Unicode details are not modelled.
- `base64.b64decode(...).decode('utf-8')` in the document importer is the parameter `decode`. The lenient decoder itself is not modelled. `Base64.Decode` is a strict decoder, used only to prove that encoding loses nothing.
- The oracle is deterministic: the same URL and Accept value always get the same reply. Timeouts, header validation and servers that change between requests are not modelled. A request that raises is the reply `Threw`.
- FetchBinaryContent: the sequence of requests sent is a ghost result. It is proved equal to `Attempts`, but only the fetched content is a real result.
- Connection-per-call handling is not modelled, including the separate connection `get_category_id` opens. Commit and rollback are per document, as the source intends.
- The outer `except` of `process_url_references` (a database error while selecting gives `(0, 0)`) is not modelled.
- The outer `except` of `import_document_references` is not modelled separately. Its rollback only undoes the uncommitted work of the document that halted the loop, and the model already leaves that out.
- `note_id` in `update_note_with_binary_content` is used only for logging and is ignored.
- `status` and `docStatus` in the document importer are read but never stored. They have no effect beyond the exception a non-dict document raises.
- `str()` of a list or dict inside `"URL: " + str(url)` and the strength text does not escape quotes.
