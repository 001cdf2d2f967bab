/** The DocumentReference importer: normalising the input's shape, collecting
    and inserting note categories, and importing each document as a `note`
    row with at most one `note_version` row, committed or rolled back on its
    own. */
module DocumentImport {
  import opened PyJson
  import opened Schema

  // ---------------------------------------------------------------------
  // Input shape: a Bundle, a single resource, or a list of resources.

  predicate IsDocumentReference(x: Json) {
    x.JObj? && Lookup(x.fields, "resourceType") == Some(JStr("DocumentReference"))
  }

  /** `[doc for doc in items if doc.get('resourceType') == 'DocumentReference']`:
      `.get` raises on an item that is not a dict. */
  function FilterDocuments(items: seq<Json>): (r: Py<seq<Json>>)
    ensures r.Ok? <==> forall i :: 0 <= i < |items| ==> items[i].JObj?
    ensures r.Ok? ==> forall x :: x in r.value <==> x in items && IsDocumentReference(x)
    ensures r.Ok? ==> |r.value| <= |items|
  {
    if items == [] then Ok([])
    else
      var t :- Get(items[0], "resourceType", JNull);
      var rest :- FilterDocuments(items[1..]);
      assert items == [items[0]] + items[1..];
      Ok(if t == JStr("DocumentReference") then [items[0]] + rest else rest)
  }

  /** Filtering distributes over concatenation, so the kept documents stay
      in input order. */
  lemma {:induction false} FilterDocumentsAppend(a: seq<Json>, b: seq<Json>)
    ensures FilterDocuments(a + b)
              == if FilterDocuments(a).Ok? && FilterDocuments(b).Ok?
                 then Ok(FilterDocuments(a).value + FilterDocuments(b).value)
                 else Raised
    decreases |a|
  {
    if a == [] {
      assert a + b == b;
      if FilterDocuments(b).Ok? {
        assert [] + FilterDocuments(b).value == FilterDocuments(b).value;
      }
    } else {
      assert (a + b)[0] == a[0];
      assert (a + b)[1..] == a[1..] + b;
      FilterDocumentsAppend(a[1..], b);
      if a[0].JObj? && FilterDocuments(a[1..]).Ok? && FilterDocuments(b).Ok? {
        var fa, fb := FilterDocuments(a[1..]).value, FilterDocuments(b).value;
        assert [a[0]] + fa + fb == [a[0]] + (fa + fb);
      }
    }
  }

  /** The resource of a Bundle entry when it is a DocumentReference:
      `entry.get('resource', {}).get('resourceType') == 'DocumentReference'`. */
  function EntryResource(entry: Json): (r: Py<Option<Json>>)
    ensures r.Ok? <==> entry.JObj? && (Lookup(entry.fields, "resource").None? || Lookup(entry.fields, "resource").value.JObj?)
    ensures r.Ok? ==> (r.value.Some? <==> entry.JObj? && Lookup(entry.fields, "resource").Some?
                                          && IsDocumentReference(Lookup(entry.fields, "resource").value))
    ensures r.Ok? && r.value.Some? ==> r.value.value == Lookup(entry.fields, "resource").value
  {
    var resource :- Get(entry, "resource", JObj([]));
    var t :- Get(resource, "resourceType", JNull);
    if t == JStr("DocumentReference") then Ok(Some(resource)) else Ok(None)
  }

  /** `[entry['resource'] for entry in entries if ...]` */
  function BundleDocuments(entries: seq<Json>): (r: Py<seq<Json>>)
    ensures r.Ok? <==> forall i :: 0 <= i < |entries| ==> EntryResource(entries[i]).Ok?
    ensures r.Ok? ==> forall x :: x in r.value <==> exists i :: 0 <= i < |entries| && EntryResource(entries[i]) == Ok(Some(x))
    ensures r.Ok? ==> forall i :: 0 <= i < |r.value| ==> IsDocumentReference(r.value[i])
  {
    if entries == [] then Ok([])
    else
      var first :- EntryResource(entries[0]);
      var rest :- BundleDocuments(entries[1..]);
      assert forall i :: 1 <= i < |entries| ==> entries[i] == entries[1..][i - 1];
      assert forall x :: x in rest ==> exists i :: 1 <= i < |entries| && EntryResource(entries[i]) == Ok(Some(x));
      if first.Some? then Ok([first.value] + rest) else Ok(rest)
  }

  /** One entry contributes its resource when that is a DocumentReference,
      and nothing otherwise. */
  lemma BundleDocumentsOne(entry: Json)
    ensures BundleDocuments([entry]) ==
      match EntryResource(entry)
      case Raised => Raised
      case Ok(None) => Ok([])
      case Ok(Some(x)) => Ok([x])
  {
    assert [entry][1..] == [];
    if EntryResource(entry).Ok? && EntryResource(entry).value.Some? {
      assert [EntryResource(entry).value.value] + [] == [EntryResource(entry).value.value];
    }
  }

  /** The comprehension distributes over concatenation, so the documents
      come in entry order, one per qualifying entry. */
  lemma {:induction false} BundleDocumentsAppend(a: seq<Json>, b: seq<Json>)
    ensures BundleDocuments(a + b)
              == if BundleDocuments(a).Ok? && BundleDocuments(b).Ok?
                 then Ok(BundleDocuments(a).value + BundleDocuments(b).value)
                 else Raised
    decreases |a|
  {
    if a == [] {
      assert a + b == b;
      if BundleDocuments(b).Ok? {
        assert [] + BundleDocuments(b).value == BundleDocuments(b).value;
      }
    } else {
      assert (a + b)[0] == a[0];
      assert (a + b)[1..] == a[1..] + b;
      BundleDocumentsAppend(a[1..], b);
      var first := EntryResource(a[0]);
      if first.Ok? && first.value.Some? && BundleDocuments(a[1..]).Ok? && BundleDocuments(b).Ok? {
        var fa, fb := BundleDocuments(a[1..]).value, BundleDocuments(b).value;
        assert [first.value.value] + fa + fb == [first.value.value] + (fa + fb);
      }
    }
  }

  predicate IsBundle(docData: Json) {
    docData.JObj? && Lookup(docData.fields, "resourceType") == Some(JStr("Bundle"))
    && Lookup(docData.fields, "entry").Some?
  }

  /** The documents `main` hands to the two import steps; `Raised` means the
      whole run stops before importing anything. */
  function Normalize(docData: Json): (r: Py<seq<Json>>)
    ensures r.Ok? ==> forall i :: 0 <= i < |r.value| ==> IsDocumentReference(r.value[i])
  {
    match docData
    case JObj(fs) =>
      if IsBundle(docData) then
        var entries :- Iter(Lookup(fs, "entry").value);
        BundleDocuments(entries)
      else if IsDocumentReference(docData) then Ok([docData])
      else Ok([])
    case JArr(items) => FilterDocuments(items)
    case _ => Ok([])
  }

  /** The four input shapes. */
  lemma NormalizeShapes(docData: Json)
    ensures IsBundle(docData) && PathOr(docData, [Key("entry")]).JArr? && Normalize(docData).Ok? ==>
      forall x :: x in Normalize(docData).value <==>
        exists i :: 0 <= i < |PathOr(docData, [Key("entry")]).items|
          && Path(docData, [Key("entry"), Elem(i), Key("resource")]) == Some(x) && IsDocumentReference(x)
    ensures docData.JObj? && !IsBundle(docData) ==>
      Normalize(docData) == if IsDocumentReference(docData) then Ok([docData]) else Ok([])
    ensures docData.JArr? && Normalize(docData).Ok? ==>
      forall x :: x in Normalize(docData).value <==> x in docData.items && IsDocumentReference(x)
    ensures !docData.JObj? && !docData.JArr? ==> Normalize(docData) == Ok([])
    ensures IsBundle(docData) && PathOr(docData, [Key("entry")]).JArr? ==>
      Normalize(docData) == BundleDocuments(PathOr(docData, [Key("entry")]).items)
    ensures docData.JArr? ==> Normalize(docData) == FilterDocuments(docData.items)
  {
    PathKey(docData, "entry", []);
    if IsBundle(docData) && PathOr(docData, [Key("entry")]).JArr? && Normalize(docData).Ok? {
      BundleShape(docData);
    }
  }

  /** A bundle yields the document references among its entries'
      resources, in entry order (`BundleDocumentsAppend`). */
  lemma BundleShape(docData: Json)
    requires IsBundle(docData) && PathOr(docData, [Key("entry")]).JArr? && Normalize(docData).Ok?
    ensures Normalize(docData) == BundleDocuments(PathOr(docData, [Key("entry")]).items)
    ensures forall x :: x in Normalize(docData).value <==>
      exists i :: 0 <= i < |PathOr(docData, [Key("entry")]).items|
        && Path(docData, [Key("entry"), Elem(i), Key("resource")]) == Some(x) && IsDocumentReference(x)
  {
    PathKey(docData, "entry", []);
    var entries := PathOr(docData, [Key("entry")]).items;
    forall i | 0 <= i < |entries|
      ensures Path(docData, [Key("entry"), Elem(i), Key("resource")])
                == Path(entries[i], [Key("resource")])
    {
      PathAppend(docData, [Key("entry")], [Elem(i), Key("resource")]);
      PathElem(PathOr(docData, [Key("entry")]), i, [Key("resource")]);
    }
    forall i | 0 <= i < |entries| {
      PathKey(entries[i], "resource", []);
    }
  }

  // ---------------------------------------------------------------------
  // Category collection: the set of (code, display) pairs.

  type Pair = (Json, Json)

  /** One coding: `if 'code' in coding and 'display' in coding: add`. */
  function AddCoding(coding: Json, acc: set<Pair>): Py<set<Pair>> {
    var hasCode :- In("code", coding);
    if !hasCode then Ok(acc) else
    var hasDisplay :- In("display", coding);
    if !hasDisplay then Ok(acc) else
    var code :- Index(coding, "code");
    var display :- Index(coding, "display");
    if Hashable(code) && Hashable(display) then Ok(acc + {(code, display)}) else Raised
  }

  function AddCodings(codings: seq<Json>, acc: set<Pair>): Py<set<Pair>>
    decreases |codings|
  {
    if codings == [] then Ok(acc)
    else
      var next :- AddCoding(codings[0], acc);
      AddCodings(codings[1..], next)
  }

  /** One category: `if 'coding' in category and isinstance(category['coding'], list)`. */
  function AddCategory(category: Json, acc: set<Pair>): Py<set<Pair>> {
    var hasCoding :- In("coding", category);
    if !hasCoding then Ok(acc) else
    var coding :- Index(category, "coding");
    if coding.JArr? then AddCodings(coding.items, acc) else Ok(acc)
  }

  function AddCategories(categories: seq<Json>, acc: set<Pair>): Py<set<Pair>>
    decreases |categories|
  {
    if categories == [] then Ok(acc)
    else
      var next :- AddCategory(categories[0], acc);
      AddCategories(categories[1..], next)
  }

  /** One document: `if 'category' in doc and isinstance(doc['category'], list)`. */
  function AddDocument(doc: Json, acc: set<Pair>): Py<set<Pair>> {
    var hasCategory :- In("category", doc);
    if !hasCategory then Ok(acc) else
    var categories :- Index(doc, "category");
    if categories.JArr? then AddCategories(categories.items, acc) else Ok(acc)
  }

  function AddDocuments(docs: seq<Json>, acc: set<Pair>): Py<set<Pair>>
    decreases |docs|
  {
    if docs == [] then Ok(acc)
    else
      var next :- AddDocument(docs[0], acc);
      AddDocuments(docs[1..], next)
  }

  /** `unique_categories` after the three nested loops. */
  function CollectCategories(docs: seq<Json>): Py<set<Pair>> {
    AddDocuments(docs, {})
  }

  // The reference reading: every coding reached through a `category` list
  // and a `coding` list that has both a `code` and a `display`.

  /** The pair a coding contributes, if it has both keys. */
  function CodingPair(coding: Json): Option<Pair> {
    match (Path(coding, [Key("code")]), Path(coding, [Key("display")]))
    case (Some(code), Some(display)) => Some((code, display))
    case _ => None
  }

  /** The list stored under `key`, or nothing. */
  function ListAt(x: Json, key: string): seq<Json> {
    match Path(x, [Key(key)])
    case Some(JArr(items)) => items
    case _ => []
  }

  function CodingSet(codings: seq<Json>): set<Pair> {
    if codings == [] then {}
    else
      (match CodingPair(codings[0]) case Some(p) => {p} case None => {}) + CodingSet(codings[1..])
  }

  function CategorySet(categories: seq<Json>): set<Pair> {
    if categories == [] then {} else CodingSet(ListAt(categories[0], "coding")) + CategorySet(categories[1..])
  }

  function DocumentPairs(doc: Json): set<Pair> {
    CategorySet(ListAt(doc, "category"))
  }

  function DocumentSet(docs: seq<Json>): set<Pair> {
    if docs == [] then {} else DocumentPairs(docs[0]) + DocumentSet(docs[1..])
  }

  lemma AddCodingMeets(coding: Json, acc: set<Pair>)
    requires AddCoding(coding, acc).Ok?
    ensures AddCoding(coding, acc).value
              == acc + match CodingPair(coding) case Some(p) => {p} case None => {}
  {
    PathKey(coding, "code", []);
    PathKey(coding, "display", []);
  }

  lemma {:induction false} AddCodingsMeets(codings: seq<Json>, acc: set<Pair>)
    requires AddCodings(codings, acc).Ok?
    ensures AddCodings(codings, acc).value == acc + CodingSet(codings)
    decreases |codings|
  {
    if codings != [] {
      AddCodingMeets(codings[0], acc);
      AddCodingsMeets(codings[1..], AddCoding(codings[0], acc).value);
    }
  }

  lemma AddCategoryMeets(category: Json, acc: set<Pair>)
    requires AddCategory(category, acc).Ok?
    ensures AddCategory(category, acc).value == acc + CodingSet(ListAt(category, "coding"))
  {
    PathOneKey(category, "coding");
    if category.JObj? && Lookup(category.fields, "coding").Some? && Lookup(category.fields, "coding").value.JArr? {
      AddCodingsMeets(Lookup(category.fields, "coding").value.items, acc);
    } else {
      assert ListAt(category, "coding") == [];
    }
  }

  lemma {:induction false} AddCategoriesMeets(categories: seq<Json>, acc: set<Pair>)
    requires AddCategories(categories, acc).Ok?
    ensures AddCategories(categories, acc).value == acc + CategorySet(categories)
    decreases |categories|
  {
    if categories != [] {
      AddCategoryMeets(categories[0], acc);
      AddCategoriesMeets(categories[1..], AddCategory(categories[0], acc).value);
    }
  }

  lemma AddDocumentMeets(doc: Json, acc: set<Pair>)
    requires AddDocument(doc, acc).Ok?
    ensures AddDocument(doc, acc).value == acc + DocumentPairs(doc)
  {
    PathOneKey(doc, "category");
    if doc.JObj? && Lookup(doc.fields, "category").Some? && Lookup(doc.fields, "category").value.JArr? {
      AddCategoriesMeets(Lookup(doc.fields, "category").value.items, acc);
    } else {
      assert ListAt(doc, "category") == [];
    }
  }

  lemma {:induction false} AddDocumentsMeets(docs: seq<Json>, acc: set<Pair>)
    requires AddDocuments(docs, acc).Ok?
    ensures AddDocuments(docs, acc).value == acc + DocumentSet(docs)
    decreases |docs|
  {
    if docs != [] {
      AddDocumentMeets(docs[0], acc);
      AddDocumentsMeets(docs[1..], AddDocument(docs[0], acc).value);
    }
  }

  /** When collection does not raise, it yields exactly the pairs of the
      codings under `category[*].coding[*]` that carry both keys. */
  lemma CollectCategoriesIsDocumentSet(docs: seq<Json>)
    requires CollectCategories(docs).Ok?
    ensures CollectCategories(docs).value == DocumentSet(docs)
  {
    AddDocumentsMeets(docs, {});
  }

  /** The suffix from `k` is `s[k]` followed by the suffix from `k + 1`. */
  lemma SliceHead<T>(s: seq<T>, k: nat)
    requires k < |s|
    ensures s[k..][0] == s[k] && s[k..][1..] == s[k + 1..]
  {
  }

  /** The three nested loops of `import_categories` that build
      `unique_categories`; `Raised` is the exception that ends them. */
  method CollectCategoryPairs(docs: seq<Json>) returns (r: Py<set<Pair>>)
    ensures r == CollectCategories(docs)
  {
    var unique: set<Pair> := {};
    var i := 0;
    while i < |docs|
      invariant 0 <= i <= |docs|
      invariant CollectCategories(docs) == AddDocuments(docs[i..], unique)
    {
      var doc := docs[i];
      SliceHead(docs, i);
      ghost var before := unique;
      var hasCategory := In("category", doc);
      if hasCategory.Raised? {
        return Raised;
      }
      if hasCategory.value {
        var category := Index(doc, "category");
        if category.Raised? {
          return Raised;
        }
        if category.value.JArr? {
          var categories := category.value.items;
          var j := 0;
          while j < |categories|
            invariant 0 <= j <= |categories|
            invariant AddDocument(doc, before) == AddCategories(categories[j..], unique)
          {
            var cat := categories[j];
            SliceHead(categories, j);
            ghost var beforeCategory := unique;
            var hasCoding := In("coding", cat);
            if hasCoding.Raised? {
              return Raised;
            }
            if hasCoding.value {
              var coding := Index(cat, "coding");
              if coding.Raised? {
                return Raised;
              }
              if coding.value.JArr? {
                var codings := coding.value.items;
                var k := 0;
                while k < |codings|
                  invariant 0 <= k <= |codings|
                  invariant AddCategory(cat, beforeCategory) == AddCodings(codings[k..], unique)
                {
                  SliceHead(codings, k);
                  var next := AddCoding(codings[k], unique);
                  if next.Raised? {
                    return Raised;
                  }
                  unique := next.value;
                  k := k + 1;
                }
              }
            }
            j := j + 1;
          }
        }
      }
      i := i + 1;
    }
    return Ok(unique);
  }

  // ---------------------------------------------------------------------
  // Inserting the categories.

  /** The codes of a set of pairs. */
  function Codes(pairs: set<Pair>): set<Json> {
    set p | p in pairs :: p.0
  }

  /** The codes present in the `note_category` table. */
  function TableCodes(rows: seq<CategoryRow>): set<Json> {
    if rows == [] then {} else TableCodes(rows[..|rows| - 1]) + {rows[|rows| - 1].code}
  }

  /** A code is in the table exactly when some row carries it. */
  lemma {:induction false} InTableCodes(rows: seq<CategoryRow>, c: Json)
    ensures c in TableCodes(rows) <==> exists i :: 0 <= i < |rows| && rows[i].code == c
  {
    if rows != [] {
      var last := |rows| - 1;
      InTableCodes(rows[..last], c);
      assert forall i :: 0 <= i < last ==> rows[..last][i] == rows[i];
    }
  }

  lemma CodesAdd(pairs: set<Pair>, p: Pair)
    ensures Codes(pairs + {p}) == Codes(pairs) + {p.0}
  {
    assert p.0 in Codes(pairs + {p});
  }

  lemma TableCodesAppend(rows: seq<CategoryRow>, row: CategoryRow)
    ensures TableCodes(rows + [row]) == TableCodes(rows) + {row.code}
  {
    assert (rows + [row])[..|rows|] == rows;
  }

  /** Counting one more offered pair: the count of new codes grows by one
      exactly when the pair's code is not yet in the table. */
  lemma CountStep(done: set<Pair>, p: Pair, initial: set<Json>, current: set<Json>)
    requires current == initial + Codes(done)
    ensures |Codes(done + {p}) - initial|
              == |Codes(done) - initial| + if p.0 in current then 0 else 1
  {
    CodesAdd(done, p);
    if p.0 in current {
      assert Codes(done + {p}) - initial == Codes(done) - initial;
    } else {
      assert Codes(done + {p}) - initial == (Codes(done) - initial) + {p.0};
    }
  }

  /** Whether sqlite3 can bind both halves of a pair. */
  predicate PairBindable(p: Pair) {
    Bindable(p.0) && Bindable(p.1)
  }

  /** Whether sqlite3 can bind every pair of the set. */
  predicate PairsBindable(pairs: set<Pair>) {
    forall p :: p in pairs ==> PairBindable(p)
  }

  /** The INSERT under the UNIQUE constraint on `category_code`.  Binding
      comes first: a pair sqlite3 cannot bind raises an error that is not
      an IntegrityError and changes nothing.  Otherwise a row whose code is
      already present raises IntegrityError, which is caught, and is not
      added; `Ok(inserted)` says which happened. */
  method InsertCategory(db: Database, code: Json, display: Json) returns (result: Py<bool>)
    modifies db
    ensures db.notes == old(db.notes) && db.versions == old(db.versions)
    ensures db.medications == old(db.medications) && db.requests == old(db.requests)
    ensures db.administrations == old(db.administrations)
    ensures result.Raised? <==> !PairBindable((code, display))
    ensures result.Raised? ==> db.categories == old(db.categories)
    ensures result.Ok? ==> (result.value <==> code !in TableCodes(old(db.categories)))
    ensures result.Ok? ==>
      db.categories == if result.value then old(db.categories) + [CategoryRow(code, display)] else old(db.categories)
    ensures result.Ok? ==> TableCodes(db.categories) == TableCodes(old(db.categories)) + {code}
    ensures CategoriesUnique(old(db.categories)) ==> CategoriesUnique(db.categories)
  {
    if !Bindable(code) || !Bindable(display) {
      return Raised;
    }
    InTableCodes(db.categories, code);
    if exists i :: 0 <= i < |db.categories| && db.categories[i].code == code {
      result := Ok(false);
    } else {
      TableCodesAppend(db.categories, CategoryRow(code, display));
      db.categories := db.categories + [CategoryRow(code, display)];
      result := Ok(true);
    }
  }

  /** What the insert loop has achieved once `offered` has been offered to
      a table that held `initial` and now holds `rows`. */
  ghost predicate Offered(initial: seq<CategoryRow>, rows: seq<CategoryRow>, pairs: set<Pair>,
                          offered: set<Pair>, added: int)
  {
    && initial <= rows
    && added == |rows| - |initial|
    && added == |Codes(offered) - TableCodes(initial)|
    && TableCodes(rows) == TableCodes(initial) + Codes(offered)
    && (forall i :: |initial| <= i < |rows| ==> (rows[i].code, rows[i].display) in pairs)
    && (CategoriesUnique(initial) ==> CategoriesUnique(rows))
  }

  /** Offering one more pair keeps `Offered`. */
  lemma OfferStep(initial: seq<CategoryRow>, rows: seq<CategoryRow>, next: seq<CategoryRow>,
                  pairs: set<Pair>, offered: set<Pair>, added: int, p: Pair, inserted: bool)
    requires Offered(initial, rows, pairs, offered, added)
    requires p in pairs
    requires inserted <==> p.0 !in TableCodes(rows)
    requires next == if inserted then rows + [CategoryRow(p.0, p.1)] else rows
    requires TableCodes(next) == TableCodes(rows) + {p.0}
    requires CategoriesUnique(rows) ==> CategoriesUnique(next)
    ensures Offered(initial, next, pairs, offered + {p}, if inserted then added + 1 else added)
  {
    CountStep(offered, p, TableCodes(initial), TableCodes(rows));
    CodesAdd(offered, p);
    if inserted {
      assert next[|rows|] == CategoryRow(p.0, p.1);
      assert forall i :: |initial| <= i < |rows| ==> next[i] == rows[i];
    }
  }

  /** One iteration of the insert loop: offer `p` to the table.  `raised`
      reports the binding error that leaves the loop. */
  method OfferPair(db: Database, ghost initial: seq<CategoryRow>, ghost pairs: set<Pair>,
                   ghost offered: set<Pair>, added: nat, p: Pair) returns (count: nat, raised: bool)
    requires p in pairs
    requires Offered(initial, db.categories, pairs, offered, added)
    modifies db
    ensures db.notes == old(db.notes) && db.versions == old(db.versions)
    ensures db.medications == old(db.medications) && db.requests == old(db.requests)
    ensures db.administrations == old(db.administrations)
    ensures raised <==> !PairBindable(p)
    ensures raised ==> db.categories == old(db.categories) && count == added
    ensures !raised ==> Offered(initial, db.categories, pairs, offered + {p}, count)
  {
    ghost var rows := db.categories;
    var result := InsertCategory(db, p.0, p.1);
    if result.Raised? {
      return added, true;
    }
    OfferStep(initial, rows, db.categories, pairs, offered, added, p, result.value);
    count := if result.value then added + 1 else added;
    raised := false;
  }

  /** A subset of a finite set is no larger. */
  lemma {:induction false} SubsetCard<T>(a: set<T>, b: set<T>)
    requires a <= b
    ensures |a| <= |b|
  {
    if a != {} {
      var x :| x in a;
      SubsetCard(a - {x}, b - {x});
    }
  }

  /** Offering part of the pairs cannot add more codes than offering all. */
  lemma PartialCount(offered: set<Pair>, pairs: set<Pair>, initial: set<Json>)
    requires offered <= pairs
    ensures |Codes(offered) - initial| <= |Codes(pairs) - initial|
  {
    SubsetCard(Codes(offered) - initial, Codes(pairs) - initial);
  }

  /** Moving `p` from the remaining pairs to the offered ones. */
  lemma MoveOffered(pairs: set<Pair>, remaining: set<Pair>, offered: set<Pair>, p: Pair)
    requires remaining <= pairs && offered == pairs - remaining && p in remaining
    ensures offered + {p} == pairs - (remaining - {p})
  {
  }

  /** The insert loop of `import_categories`: each pair of the set is
      offered in some order, and `added` counts the inserts the UNIQUE
      constraint did not reject.  A pair sqlite3 cannot bind ends the loop
      early (`raised`), with the count reached so far. */
  method InsertCategories(db: Database, pairs: set<Pair>) returns (added: nat, raised: bool)
    modifies db
    ensures db.notes == old(db.notes) && db.versions == old(db.versions)
    ensures db.medications == old(db.medications) && db.requests == old(db.requests)
    ensures db.administrations == old(db.administrations)
    ensures raised <==> !PairsBindable(pairs)
    ensures !raised ==> Offered(old(db.categories), db.categories, pairs, pairs, added)
    ensures raised ==> added <= |Codes(pairs) - TableCodes(old(db.categories))|
  {
    var remaining := pairs;
    ghost var offered: set<Pair> := {};
    added := 0;
    assert Codes({}) == {};
    while remaining != {}
      invariant remaining <= pairs && offered == pairs - remaining
      invariant db.notes == old(db.notes) && db.versions == old(db.versions)
      invariant db.medications == old(db.medications) && db.requests == old(db.requests)
      invariant db.administrations == old(db.administrations)
      invariant Offered(old(db.categories), db.categories, pairs, offered, added)
      invariant PairsBindable(offered)
      decreases remaining
    {
      var p :| p in remaining;
      var count, failed := OfferPair(db, old(db.categories), pairs, offered, added, p);
      if failed {
        PartialCount(offered, pairs, TableCodes(old(db.categories)));
        return added, true;
      }
      added := count;
      MoveOffered(pairs, remaining, offered, p);
      remaining := remaining - {p};
      offered := offered + {p};
    }
    assert offered == pairs;
    raised := false;
  }

  /** `import_categories`: collect the pairs, then offer each to the table.
      An exception while collecting inserts nothing and returns 0.  A pair
      sqlite3 cannot bind raises past the IntegrityError handler: the
      transaction is rolled back, yet the count reached before it is
      returned.  A second run over the same documents inserts nothing and
      returns 0. */
  method ImportCategories(db: Database, docs: seq<Json>) returns (added: nat)
    modifies db
    ensures db.notes == old(db.notes) && db.versions == old(db.versions)
    ensures db.medications == old(db.medications) && db.requests == old(db.requests)
    ensures db.administrations == old(db.administrations)
    ensures CollectCategories(docs).Raised? ==> added == 0 && db.categories == old(db.categories)
    ensures CollectCategories(docs).Ok? && !PairsBindable(CollectCategories(docs).value) ==>
      && db.categories == old(db.categories)
      && added <= |Codes(CollectCategories(docs).value) - TableCodes(old(db.categories))|
    ensures CollectCategories(docs).Ok? && PairsBindable(CollectCategories(docs).value) ==>
      var pairs := CollectCategories(docs).value;
      && old(db.categories) <= db.categories
      && added == |db.categories| - |old(db.categories)|
      && added == |Codes(pairs) - TableCodes(old(db.categories))|
      && TableCodes(db.categories) == TableCodes(old(db.categories)) + Codes(pairs)
      && (forall i :: |old(db.categories)| <= i < |db.categories| ==>
            (db.categories[i].code, db.categories[i].display) in pairs)
    ensures CollectCategories(docs).Ok? && Codes(CollectCategories(docs).value) <= TableCodes(old(db.categories)) ==>
      added == 0 && db.categories == old(db.categories)
    ensures CategoriesUnique(old(db.categories)) ==> CategoriesUnique(db.categories)
  {
    var saved := db.categories;
    var collected := CollectCategoryPairs(docs);
    if collected.Raised? {
      return 0;
    }
    var raised;
    added, raised := InsertCategories(db, collected.value);
    if raised {
      db.categories := saved;
    }
    if Codes(collected.value) <= TableCodes(old(db.categories)) {
      assert Codes(collected.value) - TableCodes(old(db.categories)) == {};
    }
  }

  /** `get_category_id`: `SELECT category_id FROM note_category WHERE
      category_code = ?` answers the surrogate id of the first matching
      row; a code sqlite cannot bind raises and yields None, and no row
      matches a NULL code. */
  function CategoryIdOf(categories: seq<CategoryRow>, code: Json): (r: Option<nat>)
    ensures r.Some? <==> Bindable(code) && code != JNull && code in TableCodes(categories)
    ensures r.Some? ==> 1 <= r.value <= |categories| && categories[r.value - 1].code == code
    ensures r.Some? ==> forall i :: 0 <= i < r.value - 1 ==> categories[i].code != code
  {
    InTableCodes(categories, code);
    if !Bindable(code) || code == JNull then None else FirstWithCode(categories, code)
  }

  /** The 1-based position of the first row with `code`. */
  function FirstWithCode(rows: seq<CategoryRow>, code: Json): (r: Option<nat>)
    ensures r.Some? ==> 1 <= r.value <= |rows| && rows[r.value - 1].code == code
    ensures r.Some? ==> forall i :: 0 <= i < r.value - 1 ==> rows[i].code != code
    ensures r.None? ==> forall i :: 0 <= i < |rows| ==> rows[i].code != code
  {
    if rows == [] then None
    else if rows[0].code == code then Some(1)
    else
      match FirstWithCode(rows[1..], code)
      case None =>
        assert forall i :: 1 <= i < |rows| ==> rows[i] == rows[1..][i - 1];
        None
      case Some(k) =>
        assert rows[k] == rows[1..][k - 1];
        Some(k + 1)
  }

  /** With unique codes the id found is the only row with that code. */
  lemma CategoryIdUnique(categories: seq<CategoryRow>, code: Json)
    requires CategoriesUnique(categories)
    requires CategoryIdOf(categories, code).Some?
    ensures forall i :: 0 <= i < |categories| && categories[i].code == code ==>
              i + 1 == CategoryIdOf(categories, code).value
  {
  }

  // ---------------------------------------------------------------------
  // One document's `note` row and `note_version` fields.

  /** `ref = x.get('reference', '')`; if `ref.startswith(prefix)` the text
      after its last `/`, else None. */
  function PrefixedTail(x: Json, prefix: string): Py<Json> {
    var ref :- Get(x, "reference", JStr(""));
    var matches :- StartsWithPy(ref, prefix);
    Ok(if matches then JStr(AfterLast(ref.s, '/')) else JNull)
  }

  /** `doc['type']['coding'][0]`, when `'type' in doc and 'coding' in
      doc['type'] and len(doc['type']['coding']) > 0`. */
  function TypeCoding(doc: Json): Py<Option<Json>> {
    var hasType :- In("type", doc);
    if !hasType then Ok(None) else
    var docType :- Index(doc, "type");
    var hasCoding :- In("coding", docType);
    if !hasCoding then Ok(None) else
    var coding :- Index(docType, "coding");
    var n :- Len(coding);
    if n == 0 then Ok(None) else
    var first :- At(coding, 0);
    Ok(Some(first))
  }

  /** `note_type` and `note_type_code`: `display` and `code` of that coding. */
  function NoteType(doc: Json): Py<(Json, Json)> {
    var coding :- TypeCoding(doc);
    match coding
    case None => Ok((JNull, JNull))
    case Some(c) =>
      var display :- Get(c, "display", JNull);
      var code :- Get(c, "code", JNull);
      Ok((display, code))
  }

  /** `doc['category'][0]['coding'][0].get('code')` behind its guards, None
      when a guard fails. */
  function CategoryCode(doc: Json): Py<Json> {
    var hasCategory :- In("category", doc);
    if !hasCategory then Ok(JNull) else
    var categories :- Index(doc, "category");
    if !(categories.JArr? && |categories.items| > 0) then Ok(JNull) else
    var first := categories.items[0];
    var hasCoding :- In("coding", first);
    if !hasCoding then Ok(JNull) else
    var coding :- Index(first, "coding");
    if !(coding.JArr? && |coding.items| > 0) then Ok(JNull) else
    Get(coding.items[0], "code", JNull)
  }

  /** `category_id`: looked up only for a truthy code. */
  function CategoryIdFor(code: Json, categories: seq<CategoryRow>): Option<nat> {
    if Truthy(code) then CategoryIdOf(categories, code) else None
  }

  /** `encounter_id`: from `doc['context']['encounter'][0]`, only for an
      `Encounter/` reference. */
  function EncounterId(doc: Json): Py<Json> {
    var hasContext :- In("context", doc);
    if !hasContext then Ok(JNull) else
    var context :- Index(doc, "context");
    var hasEncounter :- In("encounter", context);
    if !hasEncounter then Ok(JNull) else
    var encounters :- Index(context, "encounter");
    if !(encounters.JArr? && |encounters.items| > 0) then Ok(JNull) else
    PrefixedTail(encounters.items[0], "Encounter/")
  }

  /** `practitioner_id`: from `doc['author'][0]`, only for a
      `Practitioner/` reference. */
  function AuthorId(doc: Json): Py<Json> {
    var hasAuthor :- In("author", doc);
    if !hasAuthor then Ok(JNull) else
    var authors :- Index(doc, "author");
    if !(authors.JArr? && |authors.items| > 0) then Ok(JNull) else
    PrefixedTail(authors.items[0], "Practitioner/")
  }

  /** The `note` row inserted for a document, before its version exists.
      Raises where the Python raises before the INSERT, including when
      sqlite cannot bind a parameter. */
  function NoteRowOf(doc: Json, categories: seq<CategoryRow>): (r: Py<NoteRow>)
    ensures r.Ok? ==> r.value.currentVersionId == None
  {
    var id :- Get(doc, "id", JNull);
    var noteType :- NoteType(doc);
    var code :- CategoryCode(doc);
    var encounter :- EncounterId(doc);
    var hasDate :- In("date", doc);
    var date :- if hasDate then Index(doc, "date") else Ok(JNull);
    if Bindable(id) && Bindable(noteType.0) && Bindable(noteType.1) && Bindable(date)
    then Ok(NoteRow(id, CategoryIdFor(code, categories), noteType.0, noteType.1, encounter, date, None))
    else Raised
  }

  /** `note_text` for an attachment: the decoded `data` (or the raw value
      when decoding fails), else the `URL: ` placeholder, else None.
      `decode` is `base64.b64decode(s).decode('utf-8')`, None where it
      raises; a `data` value that is not a string makes it raise too. */
  function NoteText(attachment: Json, decode: string -> Option<string>): Py<Json> {
    var hasData :- In("data", attachment);
    if hasData then
      var data :- Index(attachment, "data");
      Ok(if data.JStr? && decode(data.s).Some? then JStr(decode(data.s).value) else data)
    else
      var hasUrl :- In("url", attachment);
      if hasUrl then
        var url :- Index(attachment, "url");
        Ok(JStr("URL: " + Str(url)))
      else Ok(JNull)
  }

  /** The version's `note_text` and `practioner_id`, when the document has
      `content[0].attachment`; None when it has not. */
  function VersionFields(doc: Json, decode: string -> Option<string>): Py<Option<(Json, Json)>> {
    var hasContent :- In("content", doc);
    if !hasContent then Ok(None) else
    var content :- Index(doc, "content");
    if !(content.JArr? && |content.items| > 0) then Ok(None) else
    var item := content.items[0];
    var hasAttachment :- In("attachment", item);
    if !hasAttachment then Ok(None) else
    var attachment :- Index(item, "attachment");
    var text :- NoteText(attachment, decode);
    var practitioner :- AuthorId(doc);
    if Bindable(text) then Ok(Some((text, practitioner))) else Raised
  }

  /** What happens to one document. */
  datatype DocOutcome =
    | Halted      // not a dict: the error handler's own `doc.get` raises and ends the loop
    | Rejected    // raised before the note insert: nothing to undo, nothing counted
    | RolledBack  // raised after the note insert: counted in notes_added, then undone
    | Committed(note: NoteRow, version: Option<(Json, Json)>)

  function ProcessDocument(doc: Json, categories: seq<CategoryRow>, decode: string -> Option<string>): DocOutcome {
    if !doc.JObj? then Halted
    else
      match NoteRowOf(doc, categories)
      case Raised => Rejected
      case Ok(note) =>
        match VersionFields(doc, decode)
        case Raised => RolledBack
        case Ok(version) => Committed(note, version)
  }

  /** The two tables and the two counters of `import_document_references`. */
  datatype ImportState = ImportState(notes: seq<NoteRow>, versions: seq<VersionRow>, notesAdded: nat, versionsAdded: nat)

  /** The effect of one document's outcome.  A committed version gets
      `version_number` 1 and becomes the note's current version. */
  function Apply(st: ImportState, outcome: DocOutcome): ImportState {
    match outcome
    case Halted => st
    case Rejected => st
    case RolledBack => st.(notesAdded := st.notesAdded + 1)
    case Committed(note, None) => st.(notes := st.notes + [note], notesAdded := st.notesAdded + 1)
    case Committed(note, Some(fields)) =>
      var noteId := |st.notes| + 1;
      var versionId := |st.versions| + 1;
      ImportState(st.notes + [note.(currentVersionId := Some(versionId))],
                  st.versions + [VersionRow(noteId, 1, fields.0, fields.1, JNull)],
                  st.notesAdded + 1, st.versionsAdded + 1)
  }

  /** The whole document loop; a `Halted` document ends it. */
  function ImportDocuments(docs: seq<Json>, categories: seq<CategoryRow>, decode: string -> Option<string>,
                           st: ImportState): ImportState
    decreases |docs|
  {
    if docs == [] then st
    else
      var outcome := ProcessDocument(docs[0], categories, decode);
      if outcome.Halted? then st else ImportDocuments(docs[1..], categories, decode, Apply(st, outcome))
  }


  // ---------------------------------------------------------------------
  // The note's fields as values at paths of the document.

  const TypeCodingPath := [Key("type"), Key("coding"), Elem(0)]
  const CategoryCodePath := [Key("category"), Elem(0), Key("coding"), Elem(0), Key("code")]
  const EncounterRefPath := [Key("context"), Key("encounter"), Elem(0), Key("reference")]
  const AuthorRefPath := [Key("author"), Elem(0), Key("reference")]
  const AttachmentPath := [Key("content"), Elem(0), Key("attachment")]

  /** The id after the last `/` of a reference string with the given
      prefix; null for anything else, a missing reference included. */
  function TailIfPrefixed(ref: Option<Json>, prefix: string): (r: Json)
    ensures r != JNull ==> r.JStr? && '/' !in r.s
  {
    match ref
    case Some(JStr(s)) =>
      if StartsWith(s, prefix) then
        AfterLastSplit(s, '/');
        JStr(AfterLast(s, '/'))
      else JNull
    case _ => JNull
  }

  lemma PrefixedTailIsPath(x: Json, prefix: string)
    requires prefix != ""
    requires PrefixedTail(x, prefix).Ok?
    ensures PrefixedTail(x, prefix).value == TailIfPrefixed(Path(x, [Key("reference")]), prefix)
  {
    PathOneKey(x, "reference");
  }

  /** `encounter_id` is the reference's last segment only for an
      `Encounter/` reference, and null otherwise. */
  lemma EncounterIdIsPath(doc: Json)
    requires EncounterId(doc).Ok?
    ensures EncounterId(doc).value == TailIfPrefixed(Path(doc, EncounterRefPath), "Encounter/")
  {
    PathKey(doc, "context", [Key("encounter"), Elem(0), Key("reference")]);
    if doc.JObj? && Lookup(doc.fields, "context").Some? {
      var context := Lookup(doc.fields, "context").value;
      PathKey(context, "encounter", [Elem(0), Key("reference")]);
      if context.JObj? && Lookup(context.fields, "encounter").Some? {
        var encounters := Lookup(context.fields, "encounter").value;
        PathElem(encounters, 0, [Key("reference")]);
        if encounters.JArr? && 0 < |encounters.items| {
          PrefixedTailIsPath(encounters.items[0], "Encounter/");
        }
      }
    }
  }

  /** `practitioner_id` is the reference's last segment only for a
      `Practitioner/` reference, and null otherwise. */
  lemma AuthorIdIsPath(doc: Json)
    requires AuthorId(doc).Ok?
    ensures AuthorId(doc).value == TailIfPrefixed(Path(doc, AuthorRefPath), "Practitioner/")
  {
    PathKey(doc, "author", [Elem(0), Key("reference")]);
    if doc.JObj? && Lookup(doc.fields, "author").Some? {
      var authors := Lookup(doc.fields, "author").value;
      PathElem(authors, 0, [Key("reference")]);
      if authors.JArr? && 0 < |authors.items| {
        PrefixedTailIsPath(authors.items[0], "Practitioner/");
      }
    }
  }

  /** The category code is read from `category[0].coding[0].code` only. */
  lemma CategoryCodeIsPath(doc: Json)
    requires CategoryCode(doc).Ok?
    ensures CategoryCode(doc).value == PathOr(doc, CategoryCodePath)
  {
    PathKey(doc, "category", [Elem(0), Key("coding"), Elem(0), Key("code")]);
    if doc.JObj? && Lookup(doc.fields, "category").Some? {
      var categories := Lookup(doc.fields, "category").value;
      PathElem(categories, 0, [Key("coding"), Elem(0), Key("code")]);
      if categories.JArr? && 0 < |categories.items| {
        var first := categories.items[0];
        PathKey(first, "coding", [Elem(0), Key("code")]);
        if first.JObj? && Lookup(first.fields, "coding").Some? {
          var coding := Lookup(first.fields, "coding").value;
          PathElem(coding, 0, [Key("code")]);
          if coding.JArr? && 0 < |coding.items| {
            PathOneKey(coding.items[0], "code");
          }
        }
      }
    }
  }

  lemma TypeCodingIsPath(doc: Json)
    requires TypeCoding(doc).Ok? && TypeCoding(doc).value.Some?
    ensures TypeCoding(doc).value.value.JObj? ==> Path(doc, TypeCodingPath) == TypeCoding(doc).value
  {
    PathKey(doc, "type", [Key("coding"), Elem(0)]);
    var docType := Lookup(doc.fields, "type").value;
    PathKey(docType, "coding", [Elem(0)]);
    var coding := Lookup(docType.fields, "coding").value;
    PathElem(coding, 0, []);
  }

  lemma TypeCodingAbsent(doc: Json)
    requires TypeCoding(doc).Ok? && TypeCoding(doc).value.None?
    ensures Path(doc, TypeCodingPath).None?
  {
    PathKey(doc, "type", [Key("coding"), Elem(0)]);
    if doc.JObj? && Lookup(doc.fields, "type").Some? {
      var docType := Lookup(doc.fields, "type").value;
      PathKey(docType, "coding", [Elem(0)]);
      if docType.JObj? && Lookup(docType.fields, "coding").Some? {
        PathElem(Lookup(docType.fields, "coding").value, 0, []);
      }
    }
  }

  /** `note_type` and `note_type_code` are `display` and `code` of
      `type.coding[0]`, each null when missing. */
  lemma NoteTypeIsPath(doc: Json)
    requires NoteType(doc).Ok?
    ensures NoteType(doc).value == (PathOr(doc, TypeCodingPath + [Key("display")]),
                                    PathOr(doc, TypeCodingPath + [Key("code")]))
  {
    PathAppend(doc, TypeCodingPath, [Key("display")]);
    PathAppend(doc, TypeCodingPath, [Key("code")]);
    if TypeCoding(doc).value.Some? {
      TypeCodingIsPath(doc);
      PathOneKey(TypeCoding(doc).value.value, "display");
      PathOneKey(TypeCoding(doc).value.value, "code");
    } else {
      TypeCodingAbsent(doc);
    }
  }

  /** The `note` row of a document, field by field. */
  lemma NoteRowIsPath(doc: Json, categories: seq<CategoryRow>)
    requires doc.JObj? && NoteRowOf(doc, categories).Ok?
    ensures var row := NoteRowOf(doc, categories).value;
      && row.externalId == PathOr(doc, [Key("id")])
      && row.noteType == PathOr(doc, TypeCodingPath + [Key("display")])
      && row.noteTypeCode == PathOr(doc, TypeCodingPath + [Key("code")])
      && row.categoryId == CategoryIdFor(PathOr(doc, CategoryCodePath), categories)
      && row.encounterId == TailIfPrefixed(Path(doc, EncounterRefPath), "Encounter/")
      && row.noteDate == PathOr(doc, [Key("date")])
      && row.currentVersionId == None
  {
    PathOneKey(doc, "id");
    PathOneKey(doc, "date");
    NoteTypeIsPath(doc);
    CategoryCodeIsPath(doc);
    EncounterIdIsPath(doc);
  }

  /** `note_text` for a dict attachment: decoded `data`, else the raw
      `data`, else exactly `"URL: " + url`, else null. */
  lemma NoteTextRule(attachment: Json, decode: string -> Option<string>)
    requires attachment.JObj?
    ensures NoteText(attachment, decode).Ok?
    ensures Path(attachment, [Key("data")]).Some? ==>
      var data := Path(attachment, [Key("data")]).value;
      NoteText(attachment, decode).value
        == if data.JStr? && decode(data.s).Some? then JStr(decode(data.s).value) else data
    ensures Path(attachment, [Key("data")]).None? && Path(attachment, [Key("url")]).Some? ==>
      NoteText(attachment, decode).value == JStr("URL: " + Str(Path(attachment, [Key("url")]).value))
    ensures Path(attachment, [Key("data")]).None? && Path(attachment, [Key("url")]).None? ==>
      NoteText(attachment, decode).value == JNull
  {
    PathOneKey(attachment, "data");
    PathOneKey(attachment, "url");
  }

  /** A version is written exactly when `content[0].attachment` exists; its
      text comes from that attachment and its practitioner from
      `author[0].reference`. */
  lemma VersionFieldsIsPath(doc: Json, decode: string -> Option<string>)
    requires VersionFields(doc, decode).Ok?
    ensures VersionFields(doc, decode).value.Some? <==> Path(doc, AttachmentPath).Some?
    ensures VersionFields(doc, decode).value.Some? ==>
      VersionFields(doc, decode).value.value
        == (NoteText(Path(doc, AttachmentPath).value, decode).value,
            TailIfPrefixed(Path(doc, AuthorRefPath), "Practitioner/"))
  {
    PathKey(doc, "content", [Elem(0), Key("attachment")]);
    if doc.JObj? && Lookup(doc.fields, "content").Some? {
      var content := Lookup(doc.fields, "content").value;
      PathElem(content, 0, [Key("attachment")]);
      if content.JArr? && 0 < |content.items| {
        PathOneKey(content.items[0], "attachment");
        if VersionFields(doc, decode).value.Some? {
          AuthorIdIsPath(doc);
        }
      }
    }
  }

  // ---------------------------------------------------------------------
  // The document loop.

  lemma ApplyKeepsConsistent(st: ImportState, outcome: DocOutcome)
    requires NotesConsistent(st.notes, st.versions)
    requires outcome.Committed? ==> outcome.note.currentVersionId == None
    ensures NotesConsistent(Apply(st, outcome).notes, Apply(st, outcome).versions)
  {
    if outcome.Committed? && outcome.version.Some? {
      var r := Apply(st, outcome);
      assert forall n :: 0 <= n < |st.notes| ==> r.notes[n] == st.notes[n];
      assert forall v :: 0 <= v < |st.versions| ==> r.versions[v] == st.versions[v];
    }
  }

  /** Every version belongs to a note, and a note's current version is its
      own, before and after the import. */
  lemma {:induction false} ImportKeepsConsistent(docs: seq<Json>, categories: seq<CategoryRow>,
                                                 decode: string -> Option<string>, st: ImportState)
    requires NotesConsistent(st.notes, st.versions)
    ensures var r := ImportDocuments(docs, categories, decode, st); NotesConsistent(r.notes, r.versions)
    decreases |docs|
  {
    if docs != [] {
      var outcome := ProcessDocument(docs[0], categories, decode);
      if !outcome.Halted? {
        ApplyKeepsConsistent(st, outcome);
        ImportKeepsConsistent(docs[1..], categories, decode, Apply(st, outcome));
      }
    }
  }

  /** Earlier rows stay as they are, `versions_added` is the number of
      versions written, and `notes_added` is at least the number of notes
      kept (it also counts rolled-back documents). */
  lemma {:induction false} ImportCounts(docs: seq<Json>, categories: seq<CategoryRow>,
                                        decode: string -> Option<string>, st: ImportState)
    ensures var r := ImportDocuments(docs, categories, decode, st);
      && st.notes <= r.notes && st.versions <= r.versions
      && r.versionsAdded - st.versionsAdded == |r.versions| - |st.versions|
      && r.notesAdded - st.notesAdded >= |r.notes| - |st.notes|
      && r.notesAdded >= st.notesAdded && r.versionsAdded >= st.versionsAdded
    decreases |docs|
  {
    if docs != [] {
      var outcome := ProcessDocument(docs[0], categories, decode);
      if !outcome.Halted? {
        ImportCounts(docs[1..], categories, decode, Apply(st, outcome));
      }
    }
  }

  /** Documents that are dicts never stop the loop: importing `a + b` is
      importing `a`, then `b` from where `a` left the tables, whatever
      failed in `a`. */
  lemma {:induction false} ImportAppend(a: seq<Json>, b: seq<Json>, categories: seq<CategoryRow>,
                                        decode: string -> Option<string>, st: ImportState)
    requires forall i :: 0 <= i < |a| ==> a[i].JObj?
    ensures ImportDocuments(a + b, categories, decode, st)
              == ImportDocuments(b, categories, decode, ImportDocuments(a, categories, decode, st))
    decreases |a|
  {
    if a == [] {
      assert a + b == b;
    } else {
      assert (a + b)[0] == a[0] && (a + b)[1..] == a[1..] + b;
      ImportAppend(a[1..], b, categories, decode, Apply(st, ProcessDocument(a[0], categories, decode)));
    }
  }

  /** A document that fails leaves both tables as they were. */
  lemma FailedDocumentLeavesTables(doc: Json, categories: seq<CategoryRow>,
                                   decode: string -> Option<string>, st: ImportState)
    requires ProcessDocument(doc, categories, decode).Rejected? || ProcessDocument(doc, categories, decode).RolledBack?
    ensures var r := ImportDocuments([doc], categories, decode, st);
      r.notes == st.notes && r.versions == st.versions
  {
    assert [doc][1..] == [];
  }

  /** There is no duplicate guard: importing a committed document twice
      writes two notes with the same external id. */
  lemma ReimportDuplicates(doc: Json, categories: seq<CategoryRow>,
                           decode: string -> Option<string>, st: ImportState)
    requires ProcessDocument(doc, categories, decode).Committed?
    ensures var r := ImportDocuments([doc, doc], categories, decode, st);
      && |r.notes| == |st.notes| + 2
      && r.notes[|st.notes|].externalId == r.notes[|st.notes| + 1].externalId
  {
    var outcome := ProcessDocument(doc, categories, decode);
    var once := Apply(st, outcome);
    assert [doc, doc][1..] == [doc];
    assert [doc][1..] == [];
    assert ImportDocuments([doc], categories, decode, once) == Apply(once, outcome);
    assert ImportDocuments([doc, doc], categories, decode, st) == Apply(once, outcome);
  }

  /** `notes_added` counts a note that was rolled back: a document that
      raises after its note insert leaves both tables as they were but
      still adds one to `notes_added`. */
  lemma RolledBackNoteIsCounted(doc: Json, categories: seq<CategoryRow>,
                                decode: string -> Option<string>, st: ImportState)
    requires ProcessDocument(doc, categories, decode).RolledBack?
    ensures ImportDocuments([doc], categories, decode, st) == st.(notesAdded := st.notesAdded + 1)
  {
    assert [doc][1..] == [];
  }

  /** A document whose first content item is not a container is rolled
      back. */
  lemma RolledBackWitness(categories: seq<CategoryRow>, decode: string -> Option<string>)
    ensures ProcessDocument(JObj([("content", JArr([JNum(5)]))]), categories, decode).RolledBack?
  {
    var doc := JObj([("content", JArr([JNum(5)]))]);
    assert NoteRowOf(doc, categories).Ok?;
    assert VersionFields(doc, decode).Raised?;
  }

  /** A committed document with `content[0].attachment` adds one note and
      exactly one version, numbered 1, which is the note's current version;
      without an attachment it adds a note with no version. */
  lemma CommitWritesVersion(doc: Json, categories: seq<CategoryRow>,
                            decode: string -> Option<string>, st: ImportState)
    requires ProcessDocument(doc, categories, decode).Committed?
    ensures var r := ImportDocuments([doc], categories, decode, st);
      var note := NoteRowOf(doc, categories).value;
      && r.notesAdded == st.notesAdded + 1
      && (Path(doc, AttachmentPath).Some? ==>
            var fields := VersionFields(doc, decode).value.value;
            && r.notes == st.notes + [note.(currentVersionId := Some(|st.versions| + 1))]
            && r.versions == st.versions + [VersionRow(|st.notes| + 1, 1, fields.0, fields.1, JNull)]
            && r.versionsAdded == st.versionsAdded + 1)
      && (Path(doc, AttachmentPath).None? ==>
            && r.notes == st.notes + [note]
            && r.versions == st.versions && r.versionsAdded == st.versionsAdded)
  {
    assert [doc][1..] == [];
    VersionFieldsIsPath(doc, decode);
  }

  /** The body of the document loop for one dict `doc`: insert the note,
      then its version, and commit; an exception after the note insert
      rolls back to the tables as they were before this document. */
  method ImportDocument(db: Database, doc: Json, decode: string -> Option<string>,
                        notesBefore: nat, versionsBefore: nat)
    returns (notesAdded: nat, versionsAdded: nat)
    requires doc.JObj?
    modifies db
    ensures db.categories == old(db.categories) && db.medications == old(db.medications)
    ensures db.requests == old(db.requests) && db.administrations == old(db.administrations)
    ensures ImportState(db.notes, db.versions, notesAdded, versionsAdded)
              == Apply(ImportState(old(db.notes), old(db.versions), notesBefore, versionsBefore),
                       ProcessDocument(doc, db.categories, decode))
  {
    notesAdded, versionsAdded := notesBefore, versionsBefore;
    var savedNotes, savedVersions := db.notes, db.versions;
    var note := NoteRowOf(doc, db.categories);
    if note.Raised? {
      return;
    }
    db.notes := db.notes + [note.value];
    var noteId := |db.notes|;
    notesAdded := notesAdded + 1;
    var version := VersionFields(doc, decode);
    if version.Raised? {
      // conn.rollback()
      db.notes, db.versions := savedNotes, savedVersions;
    } else if version.value.Some? {
      var fields := version.value.value;
      db.versions := db.versions + [VersionRow(noteId, 1, fields.0, fields.1, JNull)];
      versionsAdded := versionsAdded + 1;
      var versionId := |db.versions|;
      db.notes := db.notes[noteId - 1 := db.notes[noteId - 1].(currentVersionId := Some(versionId))];
      assert db.notes == savedNotes + [note.value.(currentVersionId := Some(versionId))];
    }
  }

  /** `import_document_references`: the documents in order, each committed
      or rolled back on its own, until one that is not a dict. */
  method ImportDocumentReferences(db: Database, docs: seq<Json>, decode: string -> Option<string>)
    returns (notesAdded: nat, versionsAdded: nat)
    modifies db
    ensures db.categories == old(db.categories) && db.medications == old(db.medications)
    ensures db.requests == old(db.requests) && db.administrations == old(db.administrations)
    ensures ImportState(db.notes, db.versions, notesAdded, versionsAdded)
              == ImportDocuments(docs, db.categories, decode, ImportState(old(db.notes), old(db.versions), 0, 0))
  {
    notesAdded, versionsAdded := 0, 0;
    var i := 0;
    while i < |docs|
      invariant 0 <= i <= |docs|
      invariant db.categories == old(db.categories) && db.medications == old(db.medications)
      invariant db.requests == old(db.requests) && db.administrations == old(db.administrations)
      invariant ImportDocuments(docs, db.categories, decode, ImportState(old(db.notes), old(db.versions), 0, 0))
                  == ImportDocuments(docs[i..], db.categories, decode, ImportState(db.notes, db.versions, notesAdded, versionsAdded))
    {
      var doc := docs[i];
      assert docs[i..][0] == doc && docs[i..][1..] == docs[i + 1..];
      if !doc.JObj? {
        return;
      }
      notesAdded, versionsAdded := ImportDocument(db, doc, decode, notesAdded, versionsAdded);
      i := i + 1;
    }
  }

  // ---------------------------------------------------------------------
  // `main`: categories first, then documents.

  const CategoryDisplayPath := [Key("category"), Elem(0), Key("coding"), Elem(0), Key("display")]

  lemma {:induction false} DocumentSetHas(docs: seq<Json>, k: nat)
    requires k < |docs|
    ensures DocumentPairs(docs[k]) <= DocumentSet(docs)
    decreases k
  {
    if k > 0 {
      DocumentSetHas(docs[1..], k - 1);
      assert docs[1..][k - 1] == docs[k];
    }
  }

  /** The first coding of the first category of a document with both keys
      is one of the pairs its categories contribute. */
  lemma FirstCodingCollected(doc: Json)
    requires Path(doc, CategoryCodePath).Some? && Path(doc, CategoryDisplayPath).Some?
    ensures (Path(doc, CategoryCodePath).value, Path(doc, CategoryDisplayPath).value)
              in DocumentPairs(doc)
  {
    var rest := [Elem(0), Key("coding"), Elem(0)];
    PathAppend(doc, [Key("category")] + rest, [Key("code")]);
    PathAppend(doc, [Key("category")] + rest, [Key("display")]);
    assert CategoryCodePath == [Key("category")] + rest + [Key("code")];
    assert CategoryDisplayPath == [Key("category")] + rest + [Key("display")];
    PathKey(doc, "category", rest);
    PathOneKey(doc, "category");
    var categories := ListAt(doc, "category");
    PathElem(Lookup(doc.fields, "category").value, 0, [Key("coding"), Elem(0)]);
    PathKey(categories[0], "coding", [Elem(0)]);
    PathOneKey(categories[0], "coding");
    var codings := ListAt(categories[0], "coding");
    PathElem(Lookup(categories[0].fields, "coding").value, 0, []);
    assert CodingPair(codings[0]).Some?;
  }

  /** Because categories are imported before documents, a document whose
      first coding has a truthy, bindable code and a display finds its
      category id, whichever display won for that code. */
  lemma CategoryFoundAfterImport(docs: seq<Json>, k: nat, categories: seq<CategoryRow>)
    requires CollectCategories(docs).Ok?
    requires Codes(CollectCategories(docs).value) <= TableCodes(categories)
    requires k < |docs|
    requires Path(docs[k], CategoryCodePath).Some? && Path(docs[k], CategoryDisplayPath).Some?
    requires Truthy(PathOr(docs[k], CategoryCodePath)) && Bindable(PathOr(docs[k], CategoryCodePath))
    ensures CategoryIdFor(PathOr(docs[k], CategoryCodePath), categories).Some?
  {
    var code := PathOr(docs[k], CategoryCodePath);
    var pair := (code, Path(docs[k], CategoryDisplayPath).value);
    FirstCodingCollected(docs[k]);
    DocumentSetHas(docs, k);
    CollectCategoriesIsDocumentSet(docs);
    assert pair in CollectCategories(docs).value;
    assert code in Codes(CollectCategories(docs).value);
  }

  /** `main`'s import flow for an already parsed file: normalise the shape,
      import the categories, then the documents.  An exception while
      normalising ends `main` before anything is written. */
  method RunImport(db: Database, docData: Json, decode: string -> Option<string>)
    returns (categoriesAdded: nat, notesAdded: nat, versionsAdded: nat)
    modifies db
    ensures db.medications == old(db.medications) && db.requests == old(db.requests)
    ensures db.administrations == old(db.administrations)
    ensures Normalize(docData).Raised? ==>
      && categoriesAdded == 0 && notesAdded == 0 && versionsAdded == 0
      && db.categories == old(db.categories) && db.notes == old(db.notes) && db.versions == old(db.versions)
    ensures Normalize(docData).Ok? ==>
      var docs := Normalize(docData).value;
      && (CollectCategories(docs).Raised? ==> categoriesAdded == 0 && db.categories == old(db.categories))
      && (CollectCategories(docs).Ok? && !PairsBindable(CollectCategories(docs).value) ==>
            && categoriesAdded <= |Codes(CollectCategories(docs).value) - TableCodes(old(db.categories))|
            && db.categories == old(db.categories))
      && (CollectCategories(docs).Ok? && PairsBindable(CollectCategories(docs).value) ==>
            && categoriesAdded == |Codes(CollectCategories(docs).value) - TableCodes(old(db.categories))|
            && TableCodes(db.categories) == TableCodes(old(db.categories)) + Codes(CollectCategories(docs).value))
      && ImportState(db.notes, db.versions, notesAdded, versionsAdded)
           == ImportDocuments(docs, db.categories, decode, ImportState(old(db.notes), old(db.versions), 0, 0))
    ensures old(db.Valid()) ==> db.Valid()
  {
    var normalized := Normalize(docData);
    if normalized.Raised? {
      return 0, 0, 0;
    }
    var docs := normalized.value;
    categoriesAdded := ImportCategories(db, docs);
    ghost var notesBefore, versionsBefore := db.notes, db.versions;
    notesAdded, versionsAdded := ImportDocumentReferences(db, docs, decode);
    if NotesConsistent(notesBefore, versionsBefore) {
      ImportKeepsConsistent(docs, db.categories, decode, ImportState(notesBefore, versionsBefore, 0, 0));
    }
  }
}
