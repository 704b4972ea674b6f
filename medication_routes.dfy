/**
 * The medication routes. The collection is a class: the ids in natural (insertion) order,
 * the documents by id, and the next id to hand out. Get, create, update and delete work on
 * it; list, search, low-stock, expiring-soon and scan are functions of what `find()`
 * returns, in that order.
 */
module MedicationRoutes {
  import opened Wrappers
  import opened Js
  import opened Http
  import opened Models

  const MEDICATION_NOT_FOUND := "Medication not found"
  const SEARCH_TERM_REQUIRED := "Search term is required"
  const BARCODE_REQUIRED := "Barcode is required"
  const MEDICATION_DELETED := "Medication deleted successfully"

  function DocId(d: Doc): Id
  {
    d.id
  }

  ghost predicate DistinctIds(docs: seq<Doc>)
  {
    DistinctBy(docs, DocId)
  }

  /** The documents stored under `ids`, in that order. */
  function DocsOf(ids: seq<Id>, records: map<Id, Medication>): (docs: seq<Doc>)
    requires forall i :: 0 <= i < |ids| ==> ids[i] in records
    ensures |docs| == |ids|
    ensures forall i :: 0 <= i < |ids| ==> docs[i] == Doc(ids[i], records[ids[i]])
  {
    if ids == [] then [] else [Doc(ids[0], records[ids[0]])] + DocsOf(ids[1..], records)
  }

  function SameId(k: Id): Id
  {
    k
  }

  function IdIsNot(id: Id): Id -> bool
  {
    (k: Id) => k != id
  }

  function DocIdIsNot(id: Id): Doc -> bool
  {
    (d: Doc) => d.id != id
  }

  /** The documents under `ids` depend only on the entries of `ids`. */
  lemma DocsOfFrame(ids: seq<Id>, r1: map<Id, Medication>, r2: map<Id, Medication>)
    requires forall i :: 0 <= i < |ids| ==> ids[i] in r1 && ids[i] in r2 && r1[ids[i]] == r2[ids[i]]
    ensures DocsOf(ids, r1) == DocsOf(ids, r2)
  {
  }

  /** Filtering the ids by "not `id`" filters their documents the same way. */
  lemma {:induction false} DocsOfFilter(ids: seq<Id>, records: map<Id, Medication>, id: Id)
    requires forall i :: 0 <= i < |ids| ==> ids[i] in records
    ensures forall i :: 0 <= i < |Filter<Id>(ids, IdIsNot(id))| ==> Filter<Id>(ids, IdIsNot(id))[i] in records
    ensures DocsOf(Filter<Id>(ids, IdIsNot(id)), records) == Filter(DocsOf(ids, records), DocIdIsNot(id))
  {
    if ids != [] {
      var tail := ids[1..];
      DocsOfFilter(tail, records, id);
      var d0 := Doc(ids[0], records[ids[0]]);
      var docs := DocsOf(ids, records);
      assert docs == [d0] + DocsOf(tail, records);
      assert docs[1..] == DocsOf(tail, records);
      var rest := Filter(tail, IdIsNot(id));
      if ids[0] != id {
        assert Filter<Id>(ids, IdIsNot(id)) == [ids[0]] + rest;
        assert ([ids[0]] + rest)[1..] == rest;
        assert DocsOf([ids[0]] + rest, records) == [d0] + DocsOf(rest, records);
      } else {
        assert Filter<Id>(ids, IdIsNot(id)) == rest;
      }
    }
  }

  /** What is left after removing `id` does not contain it. */
  lemma FilterIdFrame(ids: seq<Id>, records: map<Id, Medication>, id: Id)
    requires forall i :: 0 <= i < |ids| ==> ids[i] in records
    ensures forall i :: 0 <= i < |Filter<Id>(ids, IdIsNot(id))| ==> Filter<Id>(ids, IdIsNot(id))[i] in records - {id}
    ensures DocsOf(Filter<Id>(ids, IdIsNot(id)), records - {id}) == Filter(DocsOf(ids, records), DocIdIsNot(id))
  {
    var kept := Filter<Id>(ids, IdIsNot(id));
    var smaller := records - {id};
    DocsOfFilter(ids, records, id);
    forall i | 0 <= i < |kept| ensures kept[i] in smaller && records[kept[i]] == smaller[kept[i]] {
      assert IdIsNot(id)(kept[i]);
    }
    DocsOfFrame(kept, records, smaller);
  }

  /** Every kept id was already below the bound. */
  lemma FilterIdBelow(ids: seq<Id>, nextId: Id, id: Id)
    requires forall i :: 0 <= i < |ids| ==> ids[i] < nextId
    ensures forall i :: 0 <= i < |Filter<Id>(ids, IdIsNot(id))| ==> Filter<Id>(ids, IdIsNot(id))[i] < nextId
  {
    var kept := Filter<Id>(ids, IdIsNot(id));
    forall i | 0 <= i < |kept| ensures kept[i] < nextId {
      var j :| 0 <= j < |ids| && ids[j] == kept[i];
    }
  }

  /** Every other stored id is kept. */
  lemma FilterIdCovers(ids: seq<Id>, records: map<Id, Medication>, id: Id)
    requires forall k :: k in records ==> k in ids
    ensures forall k :: k in records - {id} ==> k in Filter<Id>(ids, IdIsNot(id))
  {
    forall k | k in records - {id} ensures k in Filter<Id>(ids, IdIsNot(id)) {
      var j :| 0 <= j < |ids| && ids[j] == k;
      assert IdIsNot(id)(ids[j]);
    }
  }

  /** Removing ids keeps the rest free of duplicates. */
  lemma FilterIdDistinct(ids: seq<Id>, id: Id)
    requires forall i, j :: 0 <= i < j < |ids| ==> ids[i] != ids[j]
    ensures forall i, j :: 0 <= i < j < |Filter<Id>(ids, IdIsNot(id))| ==> Filter<Id>(ids, IdIsNot(id))[i] != Filter<Id>(ids, IdIsNot(id))[j]
  {
    var kept: seq<Id> := Filter<Id>(ids, IdIsNot(id));
    FilterIsSubsequence<Id>(ids, IdIsNot(id));
    assert DistinctBy<Id, Id>(ids, SameId);
    SubsequenceDistinct<Id, Id>(kept, ids, SameId);
    assert forall i, j :: 0 <= i < j < |kept| ==> SameId(kept[i]) != SameId(kept[j]);
  }

  /** Every id is stored once, has a document, and was handed out before `nextId`. */
  ghost predicate StoreInvariant(ids: seq<Id>, records: map<Id, Medication>, nextId: Id)
  {
    && (forall i :: 0 <= i < |ids| ==> ids[i] in records && ids[i] < nextId)
    && (forall k :: k in records ==> k in ids)
    && (forall i, j :: 0 <= i < j < |ids| ==> ids[i] != ids[j])
  }

  /** Deleting one id keeps the store invariant. */
  lemma DeleteKeepsInvariant(ids: seq<Id>, records: map<Id, Medication>, nextId: Id, id: Id)
    requires StoreInvariant(ids, records, nextId)
    ensures StoreInvariant(Filter<Id>(ids, IdIsNot(id)), records - {id}, nextId)
  {
    FilterIdFrame(ids, records, id);
    FilterIdBelow(ids, nextId, id);
    FilterIdCovers(ids, records, id);
    FilterIdDistinct(ids, id);
  }

  /** Storing a new document under `nextId` keeps the invariant and appends to the list. */
  lemma CreateKeepsInvariant(ids: seq<Id>, records: map<Id, Medication>, nextId: Id, med: Medication)
    requires StoreInvariant(ids, records, nextId)
    ensures nextId !in records
    ensures StoreInvariant(ids + [nextId], records[nextId := med], nextId + 1)
    ensures DocsOf(ids + [nextId], records[nextId := med]) == DocsOf(ids, records) + [Doc(nextId, med)]
  {
    var ids' := ids + [nextId];
    var records' := records[nextId := med];
    forall i | 0 <= i < |ids'| ensures ids'[i] in records' && ids'[i] < nextId + 1 {
      if i < |ids| {
        assert ids'[i] == ids[i];
      }
    }
    forall k | k in records' ensures k in ids' {
      if k != nextId {
        assert k in ids;
      }
    }
    forall i, j | 0 <= i < j < |ids'| ensures ids'[i] != ids'[j] {
      if j < |ids| {
        assert ids'[i] == ids[i] && ids'[j] == ids[j];
      } else {
        assert ids'[i] == ids[i];
      }
    }
    DocsOfFrame(ids, records, records');
    DocsOfAppend(ids, records', nextId);
  }

  /** Appending an id appends its document. */
  lemma DocsOfAppend(ids: seq<Id>, records: map<Id, Medication>, k: Id)
    requires forall i :: 0 <= i < |ids| ==> ids[i] in records
    requires k in records
    ensures forall i :: 0 <= i < |ids + [k]| ==> (ids + [k])[i] in records
    ensures DocsOf(ids + [k], records) == DocsOf(ids, records) + [Doc(k, records[k])]
  {
    var longer := ids + [k];
    assert forall i :: 0 <= i < |ids| ==> longer[i] == ids[i];
    assert longer[|ids|] == k;
  }

  class MedicationStore {
    var ids: seq<Id>
    var records: map<Id, Medication>
    /** Ids are handed out in increasing order, standing in for fresh ObjectIds. */
    var nextId: Id

    ghost predicate Valid()
      reads this
    {
      StoreInvariant(ids, records, nextId)
    }

    /** `Medication.find()`: every stored document once, in natural order. */
    function Docs(): seq<Doc>
      reads this
      requires Valid()
    {
      DocsOf(ids, records)
    }

    /** The listing has each stored document exactly once. */
    lemma DocsContents()
      requires Valid()
      ensures DistinctIds(Docs())
      ensures forall d :: d in Docs() <==> d.id in records && d.med == records[d.id]
    {
      var docs := Docs();
      assert forall i :: 0 <= i < |docs| ==> DocId(docs[i]) == ids[i];
    }

    constructor ()
      ensures Valid() && ids == [] && records == map[]
    {
      ids := [];
      records := map[];
      nextId := 0;
    }

    /** GET /: the whole collection. */
    function GetAll(): (r: Reply<seq<Doc>>)
      reads this
      requires Valid()
      ensures r.Ok? && r.status == OK
      ensures forall d :: d in r.value <==> d.id in records && d.med == records[d.id]
      ensures DistinctIds(r.value)
    {
      DocsContents();
      Ok(OK, Docs())
    }

    /**
     * On the store's own listing the list routes give each matching stored document exactly
     * once, so membership and order determine their replies.
     */
    lemma ListRoutesOnListing(term: string, now: int)
      requires Valid()
      ensures var low := GetLowStock(Docs()).value;
        && DistinctIds(low)
        && forall d :: d in low <==> d.id in records && d.med == records[d.id] && IsLowStock(d.med)
      ensures var soon := GetExpiringSoon(Docs(), now).value;
        && DistinctIds(soon)
        && forall d :: d in soon <==> d.id in records && d.med == records[d.id] && InExpiryRange(d.med, now)
      ensures term != "" ==>
        var found := SearchMedications(Docs(), term).value;
        && DistinctIds(found)
        && forall d :: d in found <==> d.id in records && d.med == records[d.id] && SearchMatches(d.med, term)
    {
      DocsContents();
      LowStockNoDuplicates(Docs());
      SubsequenceDistinct(GetExpiringSoon(Docs(), now).value, Docs(), DocId);
      if term != "" {
        SubsequenceDistinct(SearchMedications(Docs(), term).value, Docs(), DocId);
      }
    }

    /** GET /:id. */
    function GetById(id: Id): (r: Reply<Doc>)
      reads this
      ensures r.Err? <==> id !in records
      ensures r.Err? ==> r == Err(NOT_FOUND, MEDICATION_NOT_FOUND)
      ensures r.Ok? ==> r.status == OK && r.value.id == id && r.value.med == records[id]
    {
      if id in records then Ok(OK, Doc(id, records[id])) else Err(NOT_FOUND, MEDICATION_NOT_FOUND)
    }

    /** POST /: validate the body, store a new document under a fresh id, reply 201. */
    method Create(input: MedicationInput) returns (r: Reply<Doc>)
      requires Valid()
      modifies this
      ensures Valid()
      ensures NewMedication(input).Failure? ==>
        && r == Err(BAD_REQUEST, ValidationMessage(NewMedication(input).error))
        && ids == old(ids) && records == old(records)
      ensures NewMedication(input).Success? ==>
        && r.Ok? && r.status == CREATED
        && r.value.id !in old(records) && r.value.med == NewMedication(input).value
        && ids == old(ids) + [r.value.id]
        && records == old(records)[r.value.id := r.value.med]
        && Docs() == old(Docs()) + [r.value]
    {
      var made := NewMedication(input);
      if made.Failure? {
        return Err(BAD_REQUEST, ValidationMessage(made.error));
      }
      var id := nextId;
      CreateKeepsInvariant(ids, records, nextId, made.value);
      ids := ids + [id];
      records := records[id := made.value];
      nextId := nextId + 1;
      r := Ok(CREATED, Doc(id, made.value));
    }

    /**
     * PUT /:id: the update validators run first (400), then the lookup (404); on success
     * only the document under `id` changes, by the fields the body sets.
     */
    method Update(id: Id, patch: MedicationPatch) returns (r: Reply<Doc>)
      requires Valid()
      modifies this
      ensures Valid() && ids == old(ids) && nextId == old(nextId)
      ensures PatchErrors(patch) != [] ==>
        && r == Err(BAD_REQUEST, ValidationMessage(ValidationError("", PatchErrors(patch))))
        && records == old(records)
      ensures PatchErrors(patch) == [] && id !in old(records) ==>
        r == Err(NOT_FOUND, MEDICATION_NOT_FOUND) && records == old(records)
      ensures PatchErrors(patch) == [] && id in old(records) ==>
        && records == old(records)[id := ApplyPatch(old(records)[id], patch)]
        && r == Ok(OK, Doc(id, records[id]))
        && (forall k :: k in records && k != id ==> records[k] == old(records)[k])
    {
      var errors := PatchErrors(patch);
      if errors != [] {
        return Err(BAD_REQUEST, ValidationMessage(ValidationError("", errors)));
      }
      if id !in records {
        return Err(NOT_FOUND, MEDICATION_NOT_FOUND);
      }
      var updated := ApplyPatch(records[id], patch);
      records := records[id := updated];
      r := Ok(OK, Doc(id, updated));
    }

    /** DELETE /:id: removes exactly the document under `id`, keeping the others in order. */
    method Delete(id: Id) returns (r: Reply<Ack>)
      requires Valid()
      modifies this
      ensures Valid() && nextId == old(nextId)
      ensures id !in old(records) ==>
        r == Err(NOT_FOUND, MEDICATION_NOT_FOUND) && ids == old(ids) && records == old(records)
      ensures id in old(records) ==>
        && r == Ok(OK, Ack(true, MEDICATION_DELETED))
        && records == old(records) - {id}
        && ids == Filter<Id>(old(ids), IdIsNot(id))
    {
      if id !in records {
        return Err(NOT_FOUND, MEDICATION_NOT_FOUND);
      }
      DeleteKeepsInvariant(ids, records, nextId, id);
      ids, records := Filter<Id>(ids, IdIsNot(id)), records - {id};
      r := Ok(OK, Ack(true, MEDICATION_DELETED));
    }
  }

  // ---------------------------------------------------------------- list routes

  function IsLowStockDoc(d: Doc): bool
  {
    IsLowStock(d.med)
  }

  /** GET /low-stock. */
  function GetLowStock(docs: seq<Doc>): (r: Reply<seq<Doc>>)
    ensures r.Ok? && r.status == OK
    ensures forall d :: d in r.value <==> d in docs && IsLowStock(d.med)
    ensures IsSubsequence(r.value, docs)
  {
    FilterIsSubsequence(docs, IsLowStockDoc);
    Ok(OK, Filter(docs, IsLowStockDoc))
  }

  /** The low-stock list repeats no document. */
  lemma LowStockNoDuplicates(docs: seq<Doc>)
    requires DistinctIds(docs)
    ensures DistinctIds(GetLowStock(docs).value)
  {
    SubsequenceDistinct(GetLowStock(docs).value, docs, DocId);
  }

  /** The `$gte: today, $lte: thirtyDaysLater` query. */
  predicate InExpiryRange(m: Medication, now: int)
  {
    now <= m.expirationDate <= now + EXPIRY_WINDOW_DAYS * MS_PER_DAY
  }

  /** GET /expiring-soon. */
  function GetExpiringSoon(docs: seq<Doc>, now: int): (r: Reply<seq<Doc>>)
    ensures r.Ok? && r.status == OK
    ensures forall d :: d in r.value <==> d in docs && now <= d.med.expirationDate <= now + 30 * MS_PER_DAY
    ensures IsSubsequence(r.value, docs)
  {
    var inRange := (d: Doc) => InExpiryRange(d.med, now);
    FilterIsSubsequence(docs, inRange);
    Ok(OK, Filter(docs, inRange))
  }

  /**
   * The route lists exactly the documents whose `isExpiringSoon` virtual is true and that
   * have not yet expired: every listed document is expiring soon, but expired ones are missing.
   */
  lemma ExpiringRouteIsUnexpiredPartOfVirtual(docs: seq<Doc>, now: int)
    ensures forall d :: d in GetExpiringSoon(docs, now).value <==>
      d in docs && IsExpiringSoon(d.med, now) && now <= d.med.expirationDate
  {
    forall d | d in docs
      ensures InExpiryRange(d.med, now) <==> IsExpiringSoon(d.med, now) && now <= d.med.expirationDate
    {
      ExpiringSoonIffWithinWindow(d.med, now);
    }
  }

  /** So the route's list is included in the virtual's, never the other way round. */
  lemma ExpiringRouteWithinVirtual(docs: seq<Doc>, now: int)
    ensures forall d :: d in GetExpiringSoon(docs, now).value ==> IsExpiringSoon(d.med, now)
  {
    ExpiringRouteIsUnexpiredPartOfVirtual(docs, now);
  }

  /** Every listed document that has already expired is expiring soon by the virtual, yet not listed. */
  lemma ExpiredMedicationNotListed(docs: seq<Doc>, d: Doc, now: int)
    requires d in docs && d.med.expirationDate < now
    ensures IsExpiringSoon(d.med, now)
    ensures d !in GetExpiringSoon(docs, now).value
  {
    ExpiredIsExpiringSoon(d.med, now);
  }

  /** The `$regex` with option `i` over name, genericName and category, read as a substring test. */
  predicate SearchMatches(m: Medication, term: string)
  {
    var t := ToLower(term);
    || Includes(ToLower(m.name), t)
    || (m.genericName.Some? && Includes(ToLower(m.genericName.value), t))
    || Includes(ToLower(m.category), t)
  }

  /** GET /search?term=. */
  function SearchMedications(docs: seq<Doc>, term: string): (r: Reply<seq<Doc>>)
    ensures term == "" ==> r == Err(BAD_REQUEST, SEARCH_TERM_REQUIRED)
    ensures term != "" ==> r.Ok? && r.status == OK && IsSubsequence(r.value, docs)
    ensures term != "" ==> forall d :: d in r.value <==> d in docs && SearchMatches(d.med, term)
  {
    if term == "" then Err(BAD_REQUEST, SEARCH_TERM_REQUIRED)
    else
      var matches := (d: Doc) => SearchMatches(d.med, term);
      FilterIsSubsequence(docs, matches);
      Ok(OK, Filter(docs, matches))
  }

  /** POST /scan: the first document carrying the barcode. */
  function ScanBarcode(docs: seq<Doc>, barcode: string): (r: Reply<Doc>)
    ensures barcode == "" ==> r == Err(BAD_REQUEST, BARCODE_REQUIRED)
    ensures barcode != "" && (forall i :: 0 <= i < |docs| ==> docs[i].med.barcode != Some(barcode)) ==>
      r == Err(NOT_FOUND, MEDICATION_NOT_FOUND)
    ensures barcode != "" ==> (r.Ok? <==> exists i :: 0 <= i < |docs| && docs[i].med.barcode == Some(barcode))
    ensures r.Ok? ==>
      && r.status == OK && barcode != "" && r.value.med.barcode == Some(barcode)
      && exists i :: 0 <= i < |docs| && docs[i] == r.value
           && forall j :: 0 <= j < i ==> docs[j].med.barcode != Some(barcode)
  {
    if barcode == "" then Err(BAD_REQUEST, BARCODE_REQUIRED)
    else match Find(docs, (d: Doc) => d.med.barcode == Some(barcode))
      case None => Err(NOT_FOUND, MEDICATION_NOT_FOUND)
      case Some(d) => Ok(OK, d)
  }
}
