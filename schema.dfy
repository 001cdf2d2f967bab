/** The relational store the importers write to: one in-memory table per
    SQLite table.  A row's surrogate key (SQLite's `lastrowid`) is its
    position in its table plus one. */
module Schema {
  import opened PyJson

  datatype MedicationRow = MedicationRow(
    externalId: Json, medication: Json, form: Json, ingredient: Json,
    strength: Json, manufacturer: Json)

  /** A dose: `value` and `code` of a quantity. */
  datatype Quantity = Quantity(value: Json, unit: Json)

  datatype Period = Period(start: Json, end: Json)

  datatype Dosage = Dosage(text: Json, route: Json, administrationMethod: Json, dose: Quantity)

  datatype Timing = Timing(frequency: Json, period: Json, periodUnit: Json, bounds: Period)

  datatype MedicationRequestRow = MedicationRequestRow(
    externalId: Json, medicationId: Json, medication: Json, status: Json,
    practitionerId: Json, encounterId: Json, authoredOn: Json,
    dosage: Dosage, timing: Timing)

  datatype MedicationAdministrationRow = MedicationAdministrationRow(
    externalId: Json, medicationId: Json, medicationDisplay: Json, status: Json,
    practitionerId: Json, requestId: Json, encounterId: Json,
    effective: Period, dosage: Dosage)

  /** A `note_category` row; `category_code` carries a UNIQUE constraint. */
  datatype CategoryRow = CategoryRow(code: Json, display: Json)

  /** A `note` row; `categoryId` and `currentVersionId` are surrogate keys. */
  datatype NoteRow = NoteRow(
    externalId: Json, categoryId: Option<nat>, noteType: Json, noteTypeCode: Json,
    encounterId: Json, noteDate: Json, currentVersionId: Option<nat>)

  /** A `note_version` row; `noteId` is the owning note's surrogate key. */
  datatype VersionRow = VersionRow(
    noteId: nat, versionNumber: nat, noteText: Json, practitionerId: Json, contentType: Json)

  const NoQuantity := Quantity(JNull, JNull)
  const NoPeriod := Period(JNull, JNull)
  const NoDosage := Dosage(JNull, JNull, JNull, NoQuantity)
  const NoTiming := Timing(JNull, JNull, JNull, NoPeriod)

  /** No two categories share a code. */
  ghost predicate CategoriesUnique(categories: seq<CategoryRow>) {
    forall i, j :: 0 <= i < j < |categories| ==> categories[i].code != categories[j].code
  }

  /** Every version belongs to an existing note, and a note's current
      version is one of its own versions. */
  ghost predicate NotesConsistent(notes: seq<NoteRow>, versions: seq<VersionRow>) {
    && (forall v :: 0 <= v < |versions| ==> 1 <= versions[v].noteId <= |notes|)
    && (forall n :: 0 <= n < |notes| && notes[n].currentVersionId.Some? ==>
          var id := notes[n].currentVersionId.value;
          1 <= id <= |versions| && versions[id - 1].noteId == n + 1)
  }

  /** The SQLite database `healthcare.db`. */
  class Database {
    var categories: seq<CategoryRow>
    var notes: seq<NoteRow>
    var versions: seq<VersionRow>
    var medications: seq<MedicationRow>
    var requests: seq<MedicationRequestRow>
    var administrations: seq<MedicationAdministrationRow>

    ghost predicate Valid()
      reads this
    {
      CategoriesUnique(categories) && NotesConsistent(notes, versions)
    }

    /** A database whose schema has just been created. */
    constructor ()
      ensures Valid()
      ensures categories == [] && notes == [] && versions == []
      ensures medications == [] && requests == [] && administrations == []
    {
      categories, notes, versions := [], [], [];
      medications, requests, administrations := [], [], [];
    }
  }
}
