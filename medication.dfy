/** The medication-family importer: Medication, MedicationRequest and
    MedicationAdministration resources, each mapped to one row of its own
    table after an existence check on the external id.  An exception raised
    while reading a resource propagates to the caller and nothing is
    inserted. */
module MedicationImport {
  import opened PyJson
  import opened Schema

  // ---------------------------------------------------------------------
  // Field extraction shared by the three importers.

  /** `parent[key]['coding'][0]['display']`, read only when
      `key in parent and 'coding' in parent[key]`; `None` otherwise. */
  function CodedDisplay(parent: Json, key: string): Py<Option<Json>> {
    var hasKey :- In(key, parent);
    if !hasKey then Ok(None) else
    var concept :- Index(parent, key);
    var hasCoding :- In("coding", concept);
    if !hasCoding then Ok(None) else
    var coding :- Index(concept, "coding");
    var first :- At(coding, 0);
    var display :- Index(first, "display");
    Ok(Some(display))
  }

  function OrNull(o: Option<Json>): Json {
    if o.Some? then o.value else JNull
  }

  /** `x.get('value')` and `x.get('code')` of a quantity. */
  function QuantityOf(x: Json): Py<Quantity> {
    var value :- Get(x, "value", JNull);
    var unit :- Get(x, "code", JNull);
    Ok(Quantity(value, unit))
  }

  /** `x.get('start')` and `x.get('end')` of a period. */
  function PeriodOf(x: Json): Py<Period> {
    var start :- Get(x, "start", JNull);
    var end :- Get(x, "end", JNull);
    Ok(Period(start, end))
  }

  /** `d[key]['reference'].split('/')[-1] if key in d else None`. */
  function ReferenceId(d: Json, key: string): Py<Json> {
    var hasKey :- In(key, d);
    if !hasKey then Ok(JNull) else
    var holder :- Index(d, key);
    var ref :- Index(holder, "reference");
    if ref.JStr? then Ok(JStr(AfterLast(ref.s, '/'))) else Raised
  }

  // ---------------------------------------------------------------------
  // Medication

  /** The ingredient display and the strength, from `ingredient[0]` when
      `ingredient` is present and truthy. */
  function IngredientAndStrength(d: Json): Py<(Json, Json)> {
    var hasIngredient :- In("ingredient", d);
    if !hasIngredient then Ok((JNull, JNull)) else
    var ingredients :- Index(d, "ingredient");
    if !Truthy(ingredients) then Ok((JNull, JNull)) else
    var ing :- At(ingredients, 0);
    var name :- IngredientName(ing);
    var strength :- Strength(ing);
    Ok((name, strength))
  }

  function IngredientName(ing: Json): Py<Json> {
    var hasItem :- In("item", ing);
    if !hasItem then Ok(JNull) else
    var item :- Index(ing, "item");
    var display :- CodedDisplay(item, "concept");
    Ok(OrNull(display))
  }

  /** `"<value> <code>"` of `strengthRatio.numerator` when both are truthy. */
  function Strength(ing: Json): Py<Json> {
    var hasRatio :- In("strengthRatio", ing);
    if !hasRatio then Ok(JNull) else
    var ratio :- Index(ing, "strengthRatio");
    var numerator :- Get(ratio, "numerator", JObj([]));
    var _ :- Get(ratio, "denominator", JObj([]));
    var value :- Get(numerator, "value", JNull);
    var unit :- Get(numerator, "code", JNull);
    if Truthy(value) && Truthy(unit) then Ok(JStr(Str(value) + " " + Str(unit))) else Ok(JNull)
  }

  /** The id of the contained Organization the marketing-authorisation
      holder points to, when its reference is local (starts with `#`). */
  function LocalHolderId(d: Json): Py<Option<string>> {
    var hasHolder :- In("marketingAuthorizationHolder", d);
    if !hasHolder then Ok(None) else
    var holder :- Index(d, "marketingAuthorizationHolder");
    var hasRef :- In("reference", holder);
    if !hasRef then Ok(None) else
    var ref :- Index(holder, "reference");
    var local :- StartsWithPy(ref, "#");
    if !local then Ok(None) else Ok(Some(ref.s[1..]))
  }

  /** One turn of the manufacturer loop: `name` of a contained Organization
      whose id is `orgId`, the running value otherwise. */
  function OrganizationStep(item: Json, orgId: string, acc: Json): Py<Json> {
    var id :- Index(item, "id");
    if id != JStr(orgId) then Ok(acc) else
    var kind :- Index(item, "resourceType");
    if kind != JStr("Organization") then Ok(acc) else
    Get(item, "name", JNull)
  }

  function OrganizationScan(items: seq<Json>, orgId: string, acc: Json): Py<Json>
    decreases |items|
  {
    if items == [] then Ok(acc)
    else
      var acc' :- OrganizationStep(items[0], orgId, acc);
      OrganizationScan(items[1..], orgId, acc')
  }

  function ManufacturerOf(d: Json): Py<Json> {
    var holderId :- LocalHolderId(d);
    if holderId.None? then Ok(JNull) else
    var contained :- Get(d, "contained", JArr([]));
    var items :- Iter(contained);
    OrganizationScan(items, holderId.value, JNull)
  }

  /** The row `import_medication` inserts, or the exception it raises. */
  function MedicationRowOf(d: Json): Py<MedicationRow> {
    var id :- Index(d, "id");
    var medication :- CodedDisplay(d, "code");
    var form :- CodedDisplay(d, "doseForm");
    var ingredient :- IngredientAndStrength(d);
    var manufacturer :- ManufacturerOf(d);
    Ok(MedicationRow(id, OrNull(medication), OrNull(form), ingredient.0, ingredient.1, manufacturer))
  }

  /** A contained Organization with the given id. */
  predicate IsOrganization(item: Json, orgId: string) {
    && item.JObj?
    && Lookup(item.fields, "id") == Some(JStr(orgId))
    && Lookup(item.fields, "resourceType") == Some(JStr("Organization"))
  }

  /** One turn of the loop takes the `name` of a matching Organization and
      keeps the running value for any other item. */
  lemma OrganizationStepMatches(item: Json, orgId: string, acc: Json)
    requires OrganizationStep(item, orgId, acc).Ok?
    ensures OrganizationStep(item, orgId, acc).value
              == if IsOrganization(item, orgId) then PathOr(item, [Key("name")]) else acc
  {
  }

  /** Without a matching Organization the loop ends with its start value. */
  lemma {:induction false} OrganizationScanNoMatch(items: seq<Json>, orgId: string, acc: Json)
    requires OrganizationScan(items, orgId, acc).Ok?
    requires forall j :: 0 <= j < |items| ==> !IsOrganization(items[j], orgId)
    ensures OrganizationScan(items, orgId, acc).value == acc
  {
    if items != [] {
      OrganizationStepMatches(items[0], orgId, acc);
      assert forall j :: 0 <= j < |items[1..]| ==> items[1..][j] == items[j + 1];
      OrganizationScanNoMatch(items[1..], orgId, acc);
    }
  }

  /** The manufacturer loop keeps the `name` of the LAST matching contained
      Organization (null when that one has no name). */
  lemma {:induction false} OrganizationScanLastWins(items: seq<Json>, orgId: string, acc: Json, i: nat)
    requires OrganizationScan(items, orgId, acc).Ok?
    requires i < |items| && IsOrganization(items[i], orgId)
    requires forall j :: i < j < |items| ==> !IsOrganization(items[j], orgId)
    ensures OrganizationScan(items, orgId, acc).value == PathOr(items[i], [Key("name")])
  {
    var acc' := OrganizationStep(items[0], orgId, acc).value;
    OrganizationStepMatches(items[0], orgId, acc);
    assert forall j :: 0 <= j < |items[1..]| ==> items[1..][j] == items[j + 1];
    if i == 0 {
      OrganizationScanNoMatch(items[1..], orgId, acc');
    } else {
      OrganizationScanLastWins(items[1..], orgId, acc', i - 1);
    }
  }

  /** The `for contained in ...` loop of `import_medication`. */
  method ScanContainedOrganizations(items: seq<Json>, orgId: string) returns (manufacturer: Py<Json>)
    ensures manufacturer == OrganizationScan(items, orgId, JNull)
  {
    var acc := JNull;
    var i := 0;
    while i < |items|
      invariant 0 <= i <= |items|
      invariant OrganizationScan(items, orgId, JNull) == OrganizationScan(items[i..], orgId, acc)
    {
      assert items[i..][1..] == items[i + 1..];
      var id := Index(items[i], "id");
      if id.Raised? {
        return Raised;
      }
      if id.value == JStr(orgId) {
        var kind := Index(items[i], "resourceType");
        if kind.Raised? {
          return Raised;
        }
        if kind.value == JStr("Organization") {
          var name := Get(items[i], "name", JNull);
          acc := name.value;
        }
      }
      i := i + 1;
    }
    manufacturer := Ok(acc);
  }

  /** The manufacturer, reading the contained resources with the loop. */
  method Manufacturer(d: Json) returns (manufacturer: Py<Json>)
    ensures manufacturer == ManufacturerOf(d)
  {
    var holderId := LocalHolderId(d);
    if holderId.Raised? {
      return Raised;
    }
    if holderId.value.None? {
      return Ok(JNull);
    }
    var contained := Get(d, "contained", JArr([]));
    if contained.Raised? {
      return Raised;
    }
    var items := Iter(contained.value);
    if items.Raised? {
      return Raised;
    }
    manufacturer := ScanContainedOrganizations(items.value, holderId.value.value);
  }

  // ---------------------------------------------------------------------
  // The contained Medication of a request or an administration

  /** The contained Medication's id and display name. */
  datatype MedicationRef = MedicationRef(id: Json, display: Json)

  const NoMedicationRef := MedicationRef(JNull, JNull)

  /** One turn of the `for contained in ...` loop: a Medication replaces the
      id, and the display too when it has `code.coding`. */
  function MedicationStep(item: Json, acc: MedicationRef): Py<MedicationRef> {
    var kind :- Index(item, "resourceType");
    if kind != JStr("Medication") then Ok(acc) else
    var id :- Index(item, "id");
    var display :- CodedDisplay(item, "code");
    Ok(MedicationRef(id, if display.Some? then display.value else acc.display))
  }

  function MedicationScan(items: seq<Json>, acc: MedicationRef): Py<MedicationRef>
    decreases |items|
  {
    if items == [] then Ok(acc)
    else
      var acc' :- MedicationStep(items[0], acc);
      MedicationScan(items[1..], acc')
  }

  function ContainedMedication(d: Json): Py<MedicationRef> {
    var hasContained :- In("contained", d);
    if !hasContained then Ok(NoMedicationRef) else
    var contained :- Index(d, "contained");
    var items :- Iter(contained);
    MedicationScan(items, NoMedicationRef)
  }

  predicate IsMedication(item: Json) {
    item.JObj? && Lookup(item.fields, "resourceType") == Some(JStr("Medication"))
  }

  /** A contained Medication that carries `code.coding`. */
  predicate HasCoding(item: Json) {
    IsMedication(item) && Path(item, [Key("code"), Key("coding")]).Some?
  }

  lemma MedicationStepMatches(item: Json, acc: MedicationRef)
    requires MedicationStep(item, acc).Ok?
    ensures var r := MedicationStep(item, acc).value;
      && r.id == (if IsMedication(item) then PathOr(item, [Key("id")]) else acc.id)
      && r.display == (if HasCoding(item) then PathOr(item, [Key("code"), Key("coding"), Elem(0), Key("display")])
                       else acc.display)
  {
  }

  /** The id comes from the LAST contained Medication; the start value
      stays when there is none. */
  lemma {:induction false} MedicationScanLastId(items: seq<Json>, acc: MedicationRef)
    requires MedicationScan(items, acc).Ok?
    ensures forall i :: 0 <= i < |items| && IsMedication(items[i])
              && (forall j :: i < j < |items| ==> !IsMedication(items[j]))
              ==> MedicationScan(items, acc).value.id == PathOr(items[i], [Key("id")])
    ensures (forall j :: 0 <= j < |items| ==> !IsMedication(items[j]))
              ==> MedicationScan(items, acc).value.id == acc.id
  {
    if items != [] {
      var acc' := MedicationStep(items[0], acc).value;
      MedicationStepMatches(items[0], acc);
      MedicationScanLastId(items[1..], acc');
      assert forall j :: 0 <= j < |items[1..]| ==> items[1..][j] == items[j + 1];
      forall i | 0 <= i < |items| && IsMedication(items[i])
          && (forall j :: i < j < |items| ==> !IsMedication(items[j]))
        ensures MedicationScan(items, acc).value.id == PathOr(items[i], [Key("id")])
      {
        if i > 0 {
          assert items[1..][i - 1] == items[i];
        }
      }
    }
  }

  /** The display comes from the LAST contained Medication that has
      `code.coding`, even when a later Medication without it set the id. */
  lemma {:induction false} MedicationScanLastDisplay(items: seq<Json>, acc: MedicationRef)
    requires MedicationScan(items, acc).Ok?
    ensures forall i :: 0 <= i < |items| && HasCoding(items[i])
              && (forall j :: i < j < |items| ==> !HasCoding(items[j]))
              ==> MedicationScan(items, acc).value.display
                    == PathOr(items[i], [Key("code"), Key("coding"), Elem(0), Key("display")])
    ensures (forall j :: 0 <= j < |items| ==> !HasCoding(items[j]))
              ==> MedicationScan(items, acc).value.display == acc.display
  {
    if items != [] {
      var acc' := MedicationStep(items[0], acc).value;
      MedicationStepMatches(items[0], acc);
      MedicationScanLastDisplay(items[1..], acc');
      assert forall j :: 0 <= j < |items[1..]| ==> items[1..][j] == items[j + 1];
      forall i | 0 <= i < |items| && HasCoding(items[i])
          && (forall j :: i < j < |items| ==> !HasCoding(items[j]))
        ensures MedicationScan(items, acc).value.display
                  == PathOr(items[i], [Key("code"), Key("coding"), Elem(0), Key("display")])
      {
        if i > 0 {
          assert items[1..][i - 1] == items[i];
        }
      }
    }
  }

  /** The `for contained in request_data['contained']` loop. */
  method ScanContainedMedications(items: seq<Json>) returns (found: Py<MedicationRef>)
    ensures found == MedicationScan(items, NoMedicationRef)
  {
    var acc := NoMedicationRef;
    var i := 0;
    while i < |items|
      invariant 0 <= i <= |items|
      invariant MedicationScan(items, NoMedicationRef) == MedicationScan(items[i..], acc)
    {
      assert items[i..][1..] == items[i + 1..];
      var kind := Index(items[i], "resourceType");
      if kind.Raised? {
        return Raised;
      }
      if kind.value == JStr("Medication") {
        var id := Index(items[i], "id");
        if id.Raised? {
          return Raised;
        }
        var display := CodedDisplay(items[i], "code");
        if display.Raised? {
          return Raised;
        }
        acc := acc.(id := id.value);
        if display.value.Some? {
          acc := acc.(display := display.value.value);
        }
      }
      i := i + 1;
    }
    found := Ok(acc);
  }

  /** The contained Medication, reading `contained` with the loop. */
  method FindContainedMedication(d: Json) returns (found: Py<MedicationRef>)
    ensures found == ContainedMedication(d)
  {
    var hasContained := In("contained", d);
    if hasContained.Raised? {
      return Raised;
    }
    if !hasContained.value {
      return Ok(NoMedicationRef);
    }
    var contained := Index(d, "contained");
    if contained.Raised? {
      return Raised;
    }
    var items := Iter(contained.value);
    if items.Raised? {
      return Raised;
    }
    found := ScanContainedMedications(items.value);
  }

  // ---------------------------------------------------------------------
  // MedicationRequest


  /** `doseAndRate[0].doseQuantity` of a request's dosage. */
  function RequestDose(dosage: Json): Py<Quantity> {
    var hasRate :- In("doseAndRate", dosage);
    if !hasRate then Ok(NoQuantity) else
    var rates :- Index(dosage, "doseAndRate");
    if !Truthy(rates) then Ok(NoQuantity) else
    var rate :- At(rates, 0);
    var hasQuantity :- In("doseQuantity", rate);
    if !hasQuantity then Ok(NoQuantity) else
    var quantity :- Index(rate, "doseQuantity");
    QuantityOf(quantity)
  }

  /** `timing.repeat` of a request's dosage. */
  function RequestTiming(dosage: Json): Py<Timing> {
    var hasTiming :- In("timing", dosage);
    if !hasTiming then Ok(NoTiming) else
    var timing :- Index(dosage, "timing");
    var hasRepeat :- In("repeat", timing);
    if !hasRepeat then Ok(NoTiming) else
    var repeat :- Index(timing, "repeat");
    var frequency :- Get(repeat, "frequency", JNull);
    var period :- Get(repeat, "period", JNull);
    var periodUnit :- Get(repeat, "periodUnit", JNull);
    var hasBounds :- In("boundsPeriod", repeat);
    if !hasBounds then Ok(Timing(frequency, period, periodUnit, NoPeriod)) else
    var bounds :- Index(repeat, "boundsPeriod");
    var b :- PeriodOf(bounds);
    Ok(Timing(frequency, period, periodUnit, b))
  }

  /** Dosage and timing from `dosageInstruction[0]`, when present and truthy. */
  function RequestDosage(d: Json): Py<(Dosage, Timing)> {
    var hasInstruction :- In("dosageInstruction", d);
    if !hasInstruction then Ok((NoDosage, NoTiming)) else
    var instructions :- Index(d, "dosageInstruction");
    if !Truthy(instructions) then Ok((NoDosage, NoTiming)) else
    var dosage :- At(instructions, 0);
    var text :- Get(dosage, "text", JNull);
    var route :- CodedDisplay(dosage, "route");
    var how :- CodedDisplay(dosage, "method");
    var dose :- RequestDose(dosage);
    var timing :- RequestTiming(dosage);
    Ok((Dosage(text, OrNull(route), OrNull(how), dose), timing))
  }

  /** The row `import_medication_request` inserts, or the exception it raises. */
  function RequestRowOf(d: Json): Py<MedicationRequestRow> {
    var medication :- ContainedMedication(d);
    var id :- Index(d, "id");
    var status :- Get(d, "status", JNull);
    var practitioner :- ReferenceId(d, "requester");
    var encounter :- ReferenceId(d, "encounter");
    var authoredOn :- Get(d, "authoredOn", JNull);
    var dosage :- RequestDosage(d);
    Ok(MedicationRequestRow(id, medication.id, medication.display, status, practitioner,
                            encounter, authoredOn, dosage.0, dosage.1))
  }

  // ---------------------------------------------------------------------
  // MedicationAdministration

  /** `performer[0].actor.reference.reference`, after its last `/`, when
      `performer` is present and truthy. */
  function PerformerId(d: Json): Py<Json> {
    var hasPerformer :- In("performer", d);
    if !hasPerformer then Ok(JNull) else
    var performers :- Index(d, "performer");
    if !Truthy(performers) then Ok(JNull) else
    var performer :- At(performers, 0);
    ActorReferenceTail(performer)
  }

  /** `performer['actor']['reference']['reference'].split('/')[-1]`. */
  function ActorReferenceTail(performer: Json): Py<Json> {
    var actor :- Index(performer, "actor");
    var reference :- Index(actor, "reference");
    var ref :- Index(reference, "reference");
    if ref.JStr? then Ok(JStr(AfterLast(ref.s, '/'))) else Raised
  }

  /** Start and end, read from the key `occurencePeriod` only. */
  function EffectivePeriod(d: Json): Py<Period> {
    var hasPeriod :- In("occurencePeriod", d);
    if !hasPeriod then Ok(NoPeriod) else
    var period :- Index(d, "occurencePeriod");
    PeriodOf(period)
  }

  /** The administration's `dosage`; its dose is `dosage.dose`. */
  function AdministrationDosage(d: Json): Py<Dosage> {
    var hasDosage :- In("dosage", d);
    if !hasDosage then Ok(NoDosage) else
    var dosage :- Index(d, "dosage");
    var text :- Get(dosage, "text", JNull);
    var route :- CodedDisplay(dosage, "route");
    var how :- CodedDisplay(dosage, "method");
    var hasDose :- In("dose", dosage);
    var dose :- if hasDose then (var q :- Index(dosage, "dose"); QuantityOf(q)) else Ok(NoQuantity);
    Ok(Dosage(text, OrNull(route), OrNull(how), dose))
  }

  /** The row `import_medication_administration` inserts, or the exception
      it raises. */
  function AdministrationRowOf(d: Json): Py<MedicationAdministrationRow> {
    var medication :- ContainedMedication(d);
    var id :- Index(d, "id");
    var status :- Get(d, "status", JNull);
    var practitioner :- PerformerId(d);
    var request :- ReferenceId(d, "request");
    var encounter :- ReferenceId(d, "encounter");
    var effective :- EffectivePeriod(d);
    var dosage :- AdministrationDosage(d);
    Ok(MedicationAdministrationRow(id, medication.id, medication.display, status, practitioner,
                                   request, encounter, effective, dosage))
  }

  // ---------------------------------------------------------------------
  // Reference readings: each optional field is the value at its path in
  // the resource, or null.

  /** `x.split('/')[-1]` of a string reference; null for anything else. */
  function TailOf(ref: Json): Json {
    if ref.JStr? then JStr(AfterLast(ref.s, '/')) else JNull
  }

  lemma CodedDisplayIsPath(parent: Json, key: string)
    requires CodedDisplay(parent, key).Ok?
    ensures OrNull(CodedDisplay(parent, key).value)
              == PathOr(parent, [Key(key), Key("coding"), Elem(0), Key("display")])
  {
    var tail := [Key("coding"), Elem(0), Key("display")];
    PathKey(parent, key, tail);
    if parent.JObj? && Lookup(parent.fields, key).Some? {
      var concept := Lookup(parent.fields, key).value;
      PathKey(concept, "coding", [Elem(0), Key("display")]);
      if concept.JObj? && Lookup(concept.fields, "coding").Some? {
        var coding := Lookup(concept.fields, "coding").value;
        PathElem(coding, 0, [Key("display")]);
        if coding.JArr? && 0 < |coding.items| {
          PathKey(coding.items[0], "display", []);
        }
      }
    }
  }

  lemma QuantityIsPath(x: Json)
    requires QuantityOf(x).Ok?
    ensures QuantityOf(x).value == Quantity(PathOr(x, [Key("value")]), PathOr(x, [Key("code")]))
  {
  }

  lemma PeriodIsPath(x: Json)
    requires PeriodOf(x).Ok?
    ensures PeriodOf(x).value == Period(PathOr(x, [Key("start")]), PathOr(x, [Key("end")]))
  {
  }

  /** A reference field is the part of `<key>.reference` after its last
      `/`, and null only when the key is absent. */
  lemma ReferenceIdIsTail(d: Json, key: string)
    requires ReferenceId(d, key).Ok?
    ensures ReferenceId(d, key).value
              == if Path(d, [Key(key)]).Some? then TailOf(PathOr(d, [Key(key), Key("reference")])) else JNull
    ensures Path(d, [Key(key)]).Some? ==> PathOr(d, [Key(key), Key("reference")]).JStr?
  {
    PathKey(d, key, []);
    PathKey(d, key, [Key("reference")]);
    if d.JObj? && Lookup(d.fields, key).Some? {
      PathKey(Lookup(d.fields, key).value, "reference", []);
    }
  }

  const IngredientPath := [Key("ingredient"), Elem(0)]
  const NumeratorPath := IngredientPath + [Key("strengthRatio"), Key("numerator")]

  /** A path under `ingredient[0]`, read from the resource. */
  lemma IngredientPathOf(d: Json, rest: seq<Step>)
    ensures var ings := PathOr(d, [Key("ingredient")]);
      Path(d, IngredientPath + rest)
        == if ings.JArr? && 0 < |ings.items| && Path(d, [Key("ingredient")]).Some?
           then Path(ings.items[0], rest) else None
  {
    PathAppend(d, IngredientPath, rest);
    PathKey(d, "ingredient", [Elem(0)]);
    PathOneKey(d, "ingredient");
    if d.JObj? && Lookup(d.fields, "ingredient").Some? {
      PathElem(Lookup(d.fields, "ingredient").value, 0, []);
    }
  }

  lemma IngredientIsPath(d: Json)
    requires IngredientAndStrength(d).Ok?
    ensures IngredientAndStrength(d).value.0
              == PathOr(d, IngredientPath + [Key("item"), Key("concept"), Key("coding"), Elem(0), Key("display")])
  {
    var rest := [Key("item"), Key("concept"), Key("coding"), Elem(0), Key("display")];
    IngredientPathOf(d, rest);
    PathOneKey(d, "ingredient");
    if d.JObj? && Lookup(d.fields, "ingredient").Some? {
      var ings := Lookup(d.fields, "ingredient").value;
      if ings.JArr? && 0 < |ings.items| {
        var ing := ings.items[0];
        PathKey(ing, "item", rest[1..]);
        assert [Key("item")] + rest[1..] == rest;
        if ing.JObj? && Lookup(ing.fields, "item").Some? {
          CodedDisplayIsPath(Lookup(ing.fields, "item").value, "concept");
        }
      }
    }
  }

  const NumeratorValue := [Key("strengthRatio"), Key("numerator"), Key("value")]
  const NumeratorCode := [Key("strengthRatio"), Key("numerator"), Key("code")]

  /** One ingredient's strength, read at `strengthRatio.numerator`. */
  lemma StrengthIsPath(ing: Json)
    requires Strength(ing).Ok?
    ensures var value := PathOr(ing, NumeratorValue);
      var code := PathOr(ing, NumeratorCode);
      Strength(ing).value == if Truthy(value) && Truthy(code) then JStr(Str(value) + " " + Str(code)) else JNull
  {
    assert NumeratorValue == [Key("strengthRatio")] + [Key("numerator"), Key("value")];
    assert NumeratorCode == [Key("strengthRatio")] + [Key("numerator"), Key("code")];
    PathKey(ing, "strengthRatio", [Key("numerator"), Key("value")]);
    PathKey(ing, "strengthRatio", [Key("numerator"), Key("code")]);
    if ing.JObj? && Lookup(ing.fields, "strengthRatio").Some? {
      var ratio := Lookup(ing.fields, "strengthRatio").value;
      assert [Key("numerator"), Key("value")] == [Key("numerator")] + [Key("value")];
      assert [Key("numerator"), Key("code")] == [Key("numerator")] + [Key("code")];
      PathKey(ratio, "numerator", [Key("value")]);
      PathKey(ratio, "numerator", [Key("code")]);
      if ratio.JObj? && Lookup(ratio.fields, "numerator").Some? {
        var numerator := Lookup(ratio.fields, "numerator").value;
        PathOneKey(numerator, "value");
        PathOneKey(numerator, "code");
      }
    }
  }

  /** `strength` is `"<value> <code>"` of the first ingredient's
      `strengthRatio.numerator` exactly when both are truthy, and null
      otherwise. */
  lemma StrengthRule(d: Json)
    requires IngredientAndStrength(d).Ok?
    ensures var strength := IngredientAndStrength(d).value.1;
      var value := PathOr(d, NumeratorPath + [Key("value")]);
      var code := PathOr(d, NumeratorPath + [Key("code")]);
      && (strength != JNull <==> Truthy(value) && Truthy(code))
      && (strength != JNull ==> strength == JStr(Str(value) + " " + Str(code)))
  {
    assert NumeratorPath + [Key("value")] == IngredientPath + NumeratorValue;
    assert NumeratorPath + [Key("code")] == IngredientPath + NumeratorCode;
    IngredientPathOf(d, NumeratorValue);
    IngredientPathOf(d, NumeratorCode);
    PathOneKey(d, "ingredient");
    if d.JObj? && Lookup(d.fields, "ingredient").Some? {
      var ings := Lookup(d.fields, "ingredient").value;
      if ings.JArr? && 0 < |ings.items| {
        StrengthIsPath(ings.items[0]);
      }
    }
  }

  lemma RequestDoseIsPath(dosage: Json)
    requires RequestDose(dosage).Ok?
    ensures RequestDose(dosage).value == Quantity(
      PathOr(dosage, [Key("doseAndRate"), Elem(0), Key("doseQuantity"), Key("value")]),
      PathOr(dosage, [Key("doseAndRate"), Elem(0), Key("doseQuantity"), Key("code")]))
  {
    var prefix := [Key("doseAndRate"), Elem(0), Key("doseQuantity")];
    PathAppend(dosage, prefix, [Key("value")]);
    PathAppend(dosage, prefix, [Key("code")]);
    PathKey(dosage, "doseAndRate", prefix[1..]);
    if dosage.JObj? && Lookup(dosage.fields, "doseAndRate").Some? {
      var rates := Lookup(dosage.fields, "doseAndRate").value;
      PathElem(rates, 0, prefix[2..]);
      if rates.JArr? && 0 < |rates.items| {
        PathKey(rates.items[0], "doseQuantity", []);
        var rate := rates.items[0];
        if rate.JObj? && Lookup(rate.fields, "doseQuantity").Some? {
          QuantityIsPath(Lookup(rate.fields, "doseQuantity").value);
        }
      }
    }
  }

  lemma RequestTimingIsPath(dosage: Json)
    requires RequestTiming(dosage).Ok?
    ensures var repeat := [Key("timing"), Key("repeat")];
      RequestTiming(dosage).value == Timing(
        PathOr(dosage, repeat + [Key("frequency")]),
        PathOr(dosage, repeat + [Key("period")]),
        PathOr(dosage, repeat + [Key("periodUnit")]),
        Period(PathOr(dosage, repeat + [Key("boundsPeriod"), Key("start")]),
               PathOr(dosage, repeat + [Key("boundsPeriod"), Key("end")])))
  {
    var repeatPath := [Key("timing"), Key("repeat")];
    PathAppend(dosage, repeatPath, [Key("frequency")]);
    PathAppend(dosage, repeatPath, [Key("period")]);
    PathAppend(dosage, repeatPath, [Key("periodUnit")]);
    PathAppend(dosage, repeatPath, [Key("boundsPeriod"), Key("start")]);
    PathAppend(dosage, repeatPath, [Key("boundsPeriod"), Key("end")]);
    PathKey(dosage, "timing", [Key("repeat")]);
    if dosage.JObj? && Lookup(dosage.fields, "timing").Some? {
      var timing := Lookup(dosage.fields, "timing").value;
      PathKey(timing, "repeat", []);
      if timing.JObj? && Lookup(timing.fields, "repeat").Some? {
        var repeat := Lookup(timing.fields, "repeat").value;
        PathKey(repeat, "frequency", []);
        PathKey(repeat, "period", []);
        PathKey(repeat, "periodUnit", []);
        PathKey(repeat, "boundsPeriod", [Key("start")]);
        PathKey(repeat, "boundsPeriod", [Key("end")]);
        if repeat.JObj? && Lookup(repeat.fields, "boundsPeriod").Some? {
          var bounds := Lookup(repeat.fields, "boundsPeriod").value;
          PeriodIsPath(bounds);
        }
      }
    }
  }

  const InstructionPath := [Key("dosageInstruction"), Elem(0)]

  /** `RequestDosage` reads `dosageInstruction[0]` when there is one, and
      gives null dosage and timing otherwise. */
  lemma RequestDosageReadsInstruction(d: Json)
    requires RequestDosage(d).Ok?
    ensures Path(d, InstructionPath).None? ==> RequestDosage(d).value == (NoDosage, NoTiming)
    ensures Path(d, InstructionPath).Some? ==>
      var x := Path(d, InstructionPath).value;
      && Get(x, "text", JNull).Ok? && CodedDisplay(x, "route").Ok? && CodedDisplay(x, "method").Ok?
      && RequestDose(x).Ok? && RequestTiming(x).Ok?
      && RequestDosage(d).value
           == (Dosage(Get(x, "text", JNull).value, OrNull(CodedDisplay(x, "route").value),
                      OrNull(CodedDisplay(x, "method").value), RequestDose(x).value),
               RequestTiming(x).value)
  {
    PathKey(d, "dosageInstruction", [Elem(0)]);
    if d.JObj? && Lookup(d.fields, "dosageInstruction").Some? {
      PathElem(Lookup(d.fields, "dosageInstruction").value, 0, []);
    }
  }

  /** Every dosage field of a request is read below `dosageInstruction[0]`;
      quantity and unit only from `doseAndRate[0].doseQuantity`. */
  lemma RequestDosageIsPath(d: Json)
    requires RequestDosage(d).Ok?
    ensures var dosage := RequestDosage(d).value.0;
      && dosage.text == PathOr(d, InstructionPath + [Key("text")])
      && dosage.route == PathOr(d, InstructionPath + [Key("route"), Key("coding"), Elem(0), Key("display")])
      && dosage.administrationMethod
           == PathOr(d, InstructionPath + [Key("method"), Key("coding"), Elem(0), Key("display")])
      && dosage.dose == Quantity(
           PathOr(d, InstructionPath + [Key("doseAndRate"), Elem(0), Key("doseQuantity"), Key("value")]),
           PathOr(d, InstructionPath + [Key("doseAndRate"), Elem(0), Key("doseQuantity"), Key("code")]))
  {
    RequestDosageReadsInstruction(d);
    PathAppend(d, InstructionPath, [Key("text")]);
    PathAppend(d, InstructionPath, [Key("route"), Key("coding"), Elem(0), Key("display")]);
    PathAppend(d, InstructionPath, [Key("method"), Key("coding"), Elem(0), Key("display")]);
    PathAppend(d, InstructionPath, [Key("doseAndRate"), Elem(0), Key("doseQuantity"), Key("value")]);
    PathAppend(d, InstructionPath, [Key("doseAndRate"), Elem(0), Key("doseQuantity"), Key("code")]);
    if Path(d, InstructionPath).Some? {
      var x := Path(d, InstructionPath).value;
      PathKey(x, "text", []);
      CodedDisplayIsPath(x, "route");
      CodedDisplayIsPath(x, "method");
      RequestDoseIsPath(x);
    }
  }

  const RepeatPath := InstructionPath + [Key("timing"), Key("repeat")]

  /** A request's timing is read from `dosageInstruction[0].timing.repeat`;
      start and end only from its `boundsPeriod`. */
  lemma RequestTimingFromInstruction(d: Json)
    requires RequestDosage(d).Ok?
    ensures RequestDosage(d).value.1 == Timing(
        PathOr(d, RepeatPath + [Key("frequency")]),
        PathOr(d, RepeatPath + [Key("period")]),
        PathOr(d, RepeatPath + [Key("periodUnit")]),
        Period(PathOr(d, RepeatPath + [Key("boundsPeriod"), Key("start")]),
               PathOr(d, RepeatPath + [Key("boundsPeriod"), Key("end")])))
  {
    RequestDosageReadsInstruction(d);
    var repeat := [Key("timing"), Key("repeat")];
    var tails := [[Key("frequency")], [Key("period")], [Key("periodUnit")],
                  [Key("boundsPeriod"), Key("start")], [Key("boundsPeriod"), Key("end")]];
    forall k | 0 <= k < |tails|
      ensures Path(d, RepeatPath + tails[k])
                == if Path(d, InstructionPath).Some? then Path(Path(d, InstructionPath).value, repeat + tails[k]) else None
    {
      assert RepeatPath + tails[k] == InstructionPath + (repeat + tails[k]);
      PathAppend(d, InstructionPath, repeat + tails[k]);
    }
    assert tails[0] == [Key("frequency")] && tails[1] == [Key("period")] && tails[2] == [Key("periodUnit")];
    assert tails[3] == [Key("boundsPeriod"), Key("start")] && tails[4] == [Key("boundsPeriod"), Key("end")];
    if Path(d, InstructionPath).Some? {
      RequestTimingIsPath(Path(d, InstructionPath).value);
    }
  }

  /** Effective start and end are read from the key `occurencePeriod`
      (spelled that way) and from no other key. */
  lemma EffectivePeriodIsPath(d: Json)
    requires EffectivePeriod(d).Ok?
    ensures EffectivePeriod(d).value
              == Period(PathOr(d, [Key("occurencePeriod"), Key("start")]),
                        PathOr(d, [Key("occurencePeriod"), Key("end")]))
  {
    PathKey(d, "occurencePeriod", [Key("start")]);
    PathKey(d, "occurencePeriod", [Key("end")]);
    if d.JObj? && Lookup(d.fields, "occurencePeriod").Some? {
      PeriodIsPath(Lookup(d.fields, "occurencePeriod").value);
    }
  }

  /** An administration's dosage is read below `dosage`; its dose only from
      `dosage.dose`. */
  lemma AdministrationDosageIsPath(d: Json)
    requires AdministrationDosage(d).Ok?
    ensures AdministrationDosage(d).value == Dosage(
      PathOr(d, [Key("dosage"), Key("text")]),
      PathOr(d, [Key("dosage"), Key("route"), Key("coding"), Elem(0), Key("display")]),
      PathOr(d, [Key("dosage"), Key("method"), Key("coding"), Elem(0), Key("display")]),
      Quantity(PathOr(d, [Key("dosage"), Key("dose"), Key("value")]),
               PathOr(d, [Key("dosage"), Key("dose"), Key("code")])))
  {
    var dosagePath := [Key("dosage")];
    PathAppend(d, dosagePath, [Key("text")]);
    PathAppend(d, dosagePath, [Key("route"), Key("coding"), Elem(0), Key("display")]);
    PathAppend(d, dosagePath, [Key("method"), Key("coding"), Elem(0), Key("display")]);
    PathAppend(d, dosagePath, [Key("dose"), Key("value")]);
    PathAppend(d, dosagePath, [Key("dose"), Key("code")]);
    PathKey(d, "dosage", []);
    if d.JObj? && Lookup(d.fields, "dosage").Some? {
      var dosage := Lookup(d.fields, "dosage").value;
      PathKey(dosage, "text", []);
      CodedDisplayIsPath(dosage, "route");
      CodedDisplayIsPath(dosage, "method");
      PathKey(dosage, "dose", [Key("value")]);
      PathKey(dosage, "dose", [Key("code")]);
      if dosage.JObj? && Lookup(dosage.fields, "dose").Some? {
        QuantityIsPath(Lookup(dosage.fields, "dose").value);
      }
    }
  }

  const ActorPath := [Key("actor"), Key("reference"), Key("reference")]

  lemma ActorReferenceTailIsPath(performer: Json)
    requires ActorReferenceTail(performer).Ok?
    ensures PathOr(performer, ActorPath).JStr?
    ensures ActorReferenceTail(performer).value == TailOf(PathOr(performer, ActorPath))
  {
    PathKey(performer, "actor", [Key("reference"), Key("reference")]);
    var actor := Lookup(performer.fields, "actor").value;
    PathKey(actor, "reference", [Key("reference")]);
    PathKey(Lookup(actor.fields, "reference").value, "reference", []);
  }

  /** The practitioner of an administration is the part of
      `performer[0].actor.reference.reference` after its last `/`, and
      null when `performer` is absent or falsy. */
  lemma PerformerIdIsTail(d: Json)
    requires PerformerId(d).Ok?
    ensures var performerPath := [Key("performer"), Elem(0)] + ActorPath;
      && (Truthy(PathOr(d, [Key("performer")])) ==> PathOr(d, performerPath).JStr?)
      && PerformerId(d).value
           == if Truthy(PathOr(d, [Key("performer")])) then TailOf(PathOr(d, performerPath)) else JNull
  {
    PathKey(d, "performer", []);
    PathAppend(d, [Key("performer"), Elem(0)], ActorPath);
    PathKey(d, "performer", [Elem(0)]);
    if d.JObj? && Lookup(d.fields, "performer").Some? {
      var performers := Lookup(d.fields, "performer").value;
      PathElem(performers, 0, []);
      if Truthy(performers) {
        assert performers.JArr? && 0 < |performers.items|;
        ActorReferenceTailIsPath(performers.items[0]);
      }
    }
  }

  /** Only the misspelled key `occurencePeriod` is read: every resource
      without it gets null effective start and end, whatever it holds under
      the usual spelling `occurrencePeriod`. */
  lemma OccurrencePeriodSpellingIgnored(d: Json)
    requires AdministrationRowOf(d).Ok?
    requires Path(d, [Key("occurencePeriod")]).None?
    ensures AdministrationRowOf(d).value.effective == NoPeriod
  {
    EffectivePeriodIsPath(d);
    PathKey(d, "occurencePeriod", [Key("start")]);
    PathKey(d, "occurencePeriod", [Key("end")]);
  }

  /** A resource that carries its period under `occurrencePeriod` meets
      the lemma above. */
  lemma OccurrencePeriodWitness()
    ensures var d := JObj([("id", JStr("adm-1")),
                           ("occurrencePeriod", JObj([("start", JStr("2024-01-01")), ("end", JStr("2024-01-02"))]))]);
      && AdministrationRowOf(d).Ok?
      && Path(d, [Key("occurencePeriod")]).None?
      && Path(d, [Key("occurrencePeriod"), Key("start")]) == Some(JStr("2024-01-01"))
      && AdministrationRowOf(d).value.effective == NoPeriod
  {
  }

  /** Without a `contained` key both the medication id and its display are
      null; with a list, they come from the contained-Medication loop. */
  lemma ContainedMedicationFromList(d: Json)
    requires ContainedMedication(d).Ok?
    ensures Path(d, [Key("contained")]).None? ==> ContainedMedication(d).value == NoMedicationRef
    ensures PathOr(d, [Key("contained")]).JArr? ==>
              ContainedMedication(d) == MedicationScan(PathOr(d, [Key("contained")]).items, NoMedicationRef)
  {
    PathKey(d, "contained", []);
  }

  /** The manufacturer is null unless the holder's reference is a string
      starting with `#`; then it is the `name` of the last contained
      Organization whose id is the rest of the reference. */
  lemma ManufacturerNeedsLocalReference(d: Json)
    requires ManufacturerOf(d).Ok?
    ensures var ref := PathOr(d, [Key("marketingAuthorizationHolder"), Key("reference")]);
      !(ref.JStr? && StartsWith(ref.s, "#")) ==> ManufacturerOf(d).value == JNull
  {
    PathKey(d, "marketingAuthorizationHolder", [Key("reference")]);
    if d.JObj? && Lookup(d.fields, "marketingAuthorizationHolder").Some? {
      PathKey(Lookup(d.fields, "marketingAuthorizationHolder").value, "reference", []);
    }
  }

  lemma ManufacturerIsLastOrganization(d: Json, i: nat)
    requires ManufacturerOf(d).Ok?
    requires var ref := PathOr(d, [Key("marketingAuthorizationHolder"), Key("reference")]);
      ref.JStr? && StartsWith(ref.s, "#")
    requires var contained := PathOr(d, [Key("contained")]);
      var orgId := PathOr(d, [Key("marketingAuthorizationHolder"), Key("reference")]).s[1..];
      && contained.JArr? && i < |contained.items| && IsOrganization(contained.items[i], orgId)
      && forall j :: i < j < |contained.items| ==> !IsOrganization(contained.items[j], orgId)
    ensures ManufacturerOf(d).value == PathOr(PathOr(d, [Key("contained")]).items[i], [Key("name")])
  {
    PathKey(d, "marketingAuthorizationHolder", [Key("reference")]);
    PathKey(d, "contained", []);
    var holder := Lookup(d.fields, "marketingAuthorizationHolder").value;
    PathKey(holder, "reference", []);
    var orgId := PathOr(d, [Key("marketingAuthorizationHolder"), Key("reference")]).s[1..];
    assert LocalHolderId(d) == Ok(Some(orgId));
    OrganizationScanLastWins(PathOr(d, [Key("contained")]).items, orgId, JNull, i);
  }

  // ---------------------------------------------------------------------
  // The importers: existence check, then one insert.

  /** What one importer call did. `Failed` is an exception propagated to
      the caller. */
  datatype ImportOutcome = Skipped | Inserted | Failed

  /** `resource['id']` as the existence check binds it. */
  function ExternalId(d: Json): (r: Py<Json>)
    ensures r.Ok? ==> Bindable(r.value) && Path(d, [Key("id")]) == Some(r.value)
    ensures r.Ok? <==> Path(d, [Key("id")]).Some? && Bindable(Path(d, [Key("id")]).value)
  {
    PathKey(d, "id", []);
    var id :- Index(d, "id");
    if Bindable(id) then Ok(id) else Raised
  }

  predicate DosageBindable(x: Dosage) {
    Bindable(x.text) && Bindable(x.route) && Bindable(x.administrationMethod)
    && Bindable(x.dose.value) && Bindable(x.dose.unit)
  }

  predicate MedicationRowBindable(row: MedicationRow) {
    && Bindable(row.externalId) && Bindable(row.medication) && Bindable(row.form)
    && Bindable(row.ingredient) && Bindable(row.strength) && Bindable(row.manufacturer)
  }

  predicate RequestRowBindable(row: MedicationRequestRow) {
    && Bindable(row.externalId) && Bindable(row.medicationId) && Bindable(row.medication)
    && Bindable(row.status) && Bindable(row.practitionerId) && Bindable(row.encounterId)
    && Bindable(row.authoredOn) && DosageBindable(row.dosage)
    && Bindable(row.timing.frequency) && Bindable(row.timing.period) && Bindable(row.timing.periodUnit)
    && Bindable(row.timing.bounds.start) && Bindable(row.timing.bounds.end)
  }

  predicate AdministrationRowBindable(row: MedicationAdministrationRow) {
    && Bindable(row.externalId) && Bindable(row.medicationId) && Bindable(row.medicationDisplay)
    && Bindable(row.status) && Bindable(row.practitionerId) && Bindable(row.requestId)
    && Bindable(row.encounterId) && Bindable(row.effective.start) && Bindable(row.effective.end)
    && DosageBindable(row.dosage)
  }

  /** Whether `SELECT ... WHERE <external id column> = ?` finds a row: the
      comparison `= NULL` is never true, so a null id is never found. */
  predicate HasMedication(table: seq<MedicationRow>, id: Json) {
    id != JNull && exists i :: 0 <= i < |table| && table[i].externalId == id
  }

  predicate HasRequest(table: seq<MedicationRequestRow>, id: Json) {
    id != JNull && exists i :: 0 <= i < |table| && table[i].externalId == id
  }

  predicate HasAdministration(table: seq<MedicationAdministrationRow>, id: Json) {
    id != JNull && exists i :: 0 <= i < |table| && table[i].externalId == id
  }

  /** `import_medication`: skip a known external id, otherwise insert the
      row read from the resource; an exception inserts nothing. */
  method ImportMedication(db: Database, d: Json) returns (outcome: ImportOutcome)
    modifies db
    ensures db.categories == old(db.categories) && db.notes == old(db.notes) && db.versions == old(db.versions)
    ensures db.requests == old(db.requests) && db.administrations == old(db.administrations)
    ensures outcome == Skipped <==> ExternalId(d).Ok? && HasMedication(old(db.medications), ExternalId(d).value)
    ensures outcome == Inserted <==>
      && ExternalId(d).Ok? && !HasMedication(old(db.medications), ExternalId(d).value)
      && MedicationRowOf(d).Ok? && MedicationRowBindable(MedicationRowOf(d).value)
    ensures db.medications
              == if outcome == Inserted then old(db.medications) + [MedicationRowOf(d).value] else old(db.medications)
  {
    var id := ExternalId(d);
    if id.Raised? {
      return Failed;
    }
    if id.value != JNull && exists i :: 0 <= i < |db.medications| && db.medications[i].externalId == id.value {
      return Skipped;
    }
    var medication := CodedDisplay(d, "code");
    var form := CodedDisplay(d, "doseForm");
    var ingredient := IngredientAndStrength(d);
    if medication.Raised? || form.Raised? || ingredient.Raised? {
      return Failed;
    }
    var manufacturer := Manufacturer(d);
    if manufacturer.Raised? {
      return Failed;
    }
    var row := MedicationRow(id.value, OrNull(medication.value), OrNull(form.value),
                             ingredient.value.0, ingredient.value.1, manufacturer.value);
    if !MedicationRowBindable(row) {
      return Failed;
    }
    db.medications := db.medications + [row];
    outcome := Inserted;
  }

  /** `import_medication_request`. */
  method ImportMedicationRequest(db: Database, d: Json) returns (outcome: ImportOutcome)
    modifies db
    ensures db.categories == old(db.categories) && db.notes == old(db.notes) && db.versions == old(db.versions)
    ensures db.medications == old(db.medications) && db.administrations == old(db.administrations)
    ensures outcome == Skipped <==> ExternalId(d).Ok? && HasRequest(old(db.requests), ExternalId(d).value)
    ensures outcome == Inserted <==>
      && ExternalId(d).Ok? && !HasRequest(old(db.requests), ExternalId(d).value)
      && RequestRowOf(d).Ok? && RequestRowBindable(RequestRowOf(d).value)
    ensures db.requests
              == if outcome == Inserted then old(db.requests) + [RequestRowOf(d).value] else old(db.requests)
  {
    var id := ExternalId(d);
    if id.Raised? {
      return Failed;
    }
    if id.value != JNull && exists i :: 0 <= i < |db.requests| && db.requests[i].externalId == id.value {
      return Skipped;
    }
    var medication := FindContainedMedication(d);
    if medication.Raised? {
      return Failed;
    }
    var status := Get(d, "status", JNull);
    var practitioner := ReferenceId(d, "requester");
    var encounter := ReferenceId(d, "encounter");
    var authoredOn := Get(d, "authoredOn", JNull);
    var dosage := RequestDosage(d);
    if status.Raised? || practitioner.Raised? || encounter.Raised? || authoredOn.Raised? || dosage.Raised? {
      return Failed;
    }
    var row := MedicationRequestRow(id.value, medication.value.id, medication.value.display, status.value,
                                    practitioner.value, encounter.value, authoredOn.value,
                                    dosage.value.0, dosage.value.1);
    if !RequestRowBindable(row) {
      return Failed;
    }
    db.requests := db.requests + [row];
    outcome := Inserted;
  }

  /** `import_medication_administration`. */
  method ImportMedicationAdministration(db: Database, d: Json) returns (outcome: ImportOutcome)
    modifies db
    ensures db.categories == old(db.categories) && db.notes == old(db.notes) && db.versions == old(db.versions)
    ensures db.medications == old(db.medications) && db.requests == old(db.requests)
    ensures outcome == Skipped <==> ExternalId(d).Ok? && HasAdministration(old(db.administrations), ExternalId(d).value)
    ensures outcome == Inserted <==>
      && ExternalId(d).Ok? && !HasAdministration(old(db.administrations), ExternalId(d).value)
      && AdministrationRowOf(d).Ok? && AdministrationRowBindable(AdministrationRowOf(d).value)
    ensures db.administrations
              == if outcome == Inserted then old(db.administrations) + [AdministrationRowOf(d).value]
                 else old(db.administrations)
  {
    var id := ExternalId(d);
    if id.Raised? {
      return Failed;
    }
    if id.value != JNull && exists i :: 0 <= i < |db.administrations| && db.administrations[i].externalId == id.value {
      return Skipped;
    }
    var medication := FindContainedMedication(d);
    if medication.Raised? {
      return Failed;
    }
    var status := Get(d, "status", JNull);
    var practitioner := PerformerId(d);
    var request := ReferenceId(d, "request");
    var encounter := ReferenceId(d, "encounter");
    var effective := EffectivePeriod(d);
    var dosage := AdministrationDosage(d);
    if status.Raised? || practitioner.Raised? || request.Raised? || encounter.Raised?
       || effective.Raised? || dosage.Raised? {
      return Failed;
    }
    var row := MedicationAdministrationRow(id.value, medication.value.id, medication.value.display,
                                           status.value, practitioner.value, request.value,
                                           encounter.value, effective.value, dosage.value);
    if !AdministrationRowBindable(row) {
      return Failed;
    }
    db.administrations := db.administrations + [row];
    outcome := Inserted;
  }
}
