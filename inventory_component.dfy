/**
 * The inventory list once it is fed by the server: the list is fetched into state, the
 * search tolerates a missing generic name, a confirmed and successful delete drops the
 * deleted document from the local list, and paging uses the list view's arithmetic.
 */
module InventoryComponent {
  import opened Wrappers
  import opened Js
  import opened Models
  import opened MedicationRoutes
  import opened InventoryView

  const LOAD_FAILED := "Failed to load medications. Please try again."

  /** The search test with `genericName &&` in front of the generic-name test. */
  predicate DocMatches(d: Doc, term: string)
  {
    var t := ToLower(term);
    || Includes(ToLower(d.med.name), t)
    || (d.med.genericName.Some? && d.med.genericName.value != "" && Includes(ToLower(d.med.genericName.value), t))
    || Includes(ToLower(d.med.category), t)
  }

  function GenericNameText(m: Medication): string
  {
    if m.genericName.Some? then m.genericName.value else ""
  }

  /**
   * A missing generic name is a non-match, exactly as an empty one would be; with a
   * generic name present this is the list view's search.
   */
  lemma DocMatchesLikeView(d: Doc, term: string)
    ensures DocMatches(d, term) <==> FieldsMatch(d.med.name, GenericNameText(d.med), d.med.category, term)
  {
    var t := ToLower(term);
    IncludedInEmpty(t);
    if t == "" {
      IncludesEmpty(ToLower(d.med.name));
    }
    assert ToLower("") == "";
  }

  /** The page's search and the server's search route apply the same test. */
  lemma DocMatchesLikeRouteSearch(d: Doc, term: string)
    ensures DocMatches(d, term) <==> SearchMatches(d.med, term)
  {
    var t := ToLower(term);
    IncludedInEmpty(t);
    if t == "" {
      IncludesEmpty(ToLower(d.med.name));
    }
    assert ToLower("") == "";
  }

  /** `filteredMedications` over fetched documents. */
  function FilterDocs(docs: seq<Doc>, term: string): (r: seq<Doc>)
    ensures forall d :: d in r <==> d in docs && DocMatches(d, term)
    ensures IsSubsequence(r, docs)
  {
    var keep := (d: Doc) => DocMatches(d, term);
    FilterIsSubsequence(docs, keep);
    Filter(docs, keep)
  }

  /** `medications.filter(med => med._id !== id)`. */
  function RemoveById(meds: seq<Doc>, id: Id): (r: seq<Doc>)
    ensures forall d :: d in r <==> d in meds && d.id != id
    ensures IsSubsequence(r, meds)
  {
    FilterIsSubsequence(meds, DocIdIsNot(id));
    Filter(meds, DocIdIsNot(id))
  }

  /** What the removal drops are exactly the documents carrying `id`, each occurrence once. */
  lemma RemoveByIdPartition(meds: seq<Doc>, id: Id)
    ensures multiset(RemoveById(meds, id)) + multiset(Filter(meds, Not(DocIdIsNot(id)))) == multiset(meds)
    ensures forall d :: d in Filter(meds, Not(DocIdIsNot(id))) ==> d.id == id
  {
    FilterPartition(meds, DocIdIsNot(id));
    var dropped := Filter(meds, Not(DocIdIsNot(id)));
    forall d | d in dropped ensures d.id == id {
      assert Not(DocIdIsNot(id))(d);
    }
  }

  /** Removing an id that no document carries leaves the list as it was. */
  lemma RemoveAbsentId(meds: seq<Doc>, id: Id)
    requires forall i :: 0 <= i < |meds| ==> meds[i].id != id
    ensures RemoveById(meds, id) == meds
  {
    FilterKeepsAll(meds, DocIdIsNot(id));
  }

  /** What `medicationsAPI.getAll()` came back with. */
  datatype FetchOutcome = Loaded(data: seq<Doc>) | LoadFailed

  /** The component's state. */
  class InventoryList {
    var medications: seq<Doc>
    var loading: bool
    var error: Option<string>
    var searchTerm: string
    var currentPage: int

    constructor ()
      ensures medications == [] && loading && error == None && searchTerm == "" && currentPage == 1
    {
      medications := [];
      loading := true;
      error := None;
      searchTerm := "";
      currentPage := 1;
    }

    function Filtered(): seq<Doc>
      reads this
    {
      FilterDocs(medications, searchTerm)
    }

    /** `totalPages`, by the list view's arithmetic. */
    function PageCount(): nat
      reads this
    {
      TotalPages(|Filtered()|)
    }

    /** `currentItems`, by the list view's arithmetic. */
    function Shown(): seq<Doc>
      reads this
    {
      CurrentItems(Filtered(), currentPage)
    }

    /**
     * `fetchMedications`: loading is raised, then the list and the error are set from the
     * outcome, and loading is lowered whichever way it went.
     */
    method FetchMedications(outcome: FetchOutcome)
      modifies this
      ensures !loading && searchTerm == old(searchTerm) && currentPage == old(currentPage)
      ensures outcome.Loaded? ==> medications == outcome.data && error == None
      ensures outcome.LoadFailed? ==> medications == old(medications) && error == Some(LOAD_FAILED)
    {
      loading := true;
      match outcome {
        case Loaded(data) =>
          medications := data;
          error := None;
        case LoadFailed =>
          error := Some(LOAD_FAILED);
      }
      loading := false;
    }

    /**
     * `handleDelete`: only a confirmed delete that the server accepted changes the list,
     * and then by exactly the documents carrying `id`.
     */
    method HandleDelete(id: Id, confirmed: bool, apiOk: bool) returns (deleted: bool)
      modifies this
      ensures deleted <==> confirmed && apiOk
      ensures deleted ==> medications == RemoveById(old(medications), id)
      ensures deleted ==> forall d :: d in Filtered() ==> d.id != id
      ensures !deleted ==> medications == old(medications)
      ensures loading == old(loading) && error == old(error)
      ensures searchTerm == old(searchTerm) && currentPage == old(currentPage)
    {
      deleted := false;
      if confirmed && apiOk {
        medications := RemoveById(medications, id);
        deleted := true;
      }
    }

    method SetSearchTerm(term: string)
      modifies this
      ensures searchTerm == term
      ensures medications == old(medications) && currentPage == old(currentPage)
      ensures loading == old(loading) && error == old(error)
    {
      searchTerm := term;
    }

    /** `handleChangePage`. */
    method ChangePage(page: int)
      modifies this
      ensures currentPage == page
      ensures medications == old(medications) && searchTerm == old(searchTerm)
      ensures loading == old(loading) && error == old(error)
    {
      currentPage := page;
    }
  }
}
