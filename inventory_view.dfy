/**
 * The inventory list view over its built-in sample data: the case-insensitive search,
 * ten-per-page slicing, the page count, the "Showing x to y of n" label, the Previous/Next
 * rules, the expiry badge, and the page state that the buttons and the search box update.
 */
module InventoryView {
  import opened Js
  import opened Models

  /** A row of the built-in sample list (the price is left out). */
  datatype SampleMedication = SampleMedication(
    id: nat,
    name: string,
    genericName: string,
    category: string,
    form: string,
    stock: int,
    expirationDate: string,
    reorderLevel: int,
    isLowStock: bool)

  /** The twelve hard-coded sample medications, ids 1 to 12 in order. */
  function SampleMedications(): (ms: seq<SampleMedication>)
    ensures |ms| == 12
    ensures forall i :: 0 <= i < |ms| ==> ms[i].id == i + 1
    ensures forall i :: 0 <= i < |ms| ==> (ms[i].isLowStock <==> ms[i].stock <= ms[i].reorderLevel)
  {
    [ SampleMedication(1, "Amoxicillin 500mg", "Amoxicillin", "Antibiotics", "Capsule", 145, "2025-08-15", 50, false),
      SampleMedication(2, "Metformin 850mg", "Metformin", "Antidiabetic", "Tablet", 78, "2025-04-22", 30, false),
      SampleMedication(3, "Lisinopril 10mg", "Lisinopril", "Antihypertensive", "Tablet", 56, "2025-04-30", 40, false),
      SampleMedication(4, "Atorvastatin 20mg", "Atorvastatin", "Statins", "Tablet", 15, "2025-09-10", 25, true),
      SampleMedication(5, "Hydrochlorothiazide 25mg", "Hydrochlorothiazide", "Diuretic", "Tablet", 18, "2025-07-05", 30, true),
      SampleMedication(6, "Albuterol Inhaler", "Albuterol", "Bronchodilator", "Inhaler", 8, "2025-11-15", 20, true),
      SampleMedication(7, "Levothyroxine 50mcg", "Levothyroxine", "Thyroid", "Tablet", 112, "2025-10-30", 40, false),
      SampleMedication(8, "Omeprazole 20mg", "Omeprazole", "Proton Pump Inhibitor", "Capsule", 67, "2025-06-18", 30, false),
      SampleMedication(9, "Ibuprofen 400mg", "Ibuprofen", "NSAID", "Tablet", 93, "2025-12-05", 50, false),
      SampleMedication(10, "Azithromycin 250mg", "Azithromycin", "Antibiotics", "Tablet", 32, "2025-05-20", 25, false),
      SampleMedication(11, "Fluoxetine 20mg", "Fluoxetine", "Antidepressant", "Capsule", 42, "2025-08-10", 20, false),
      SampleMedication(12, "Loratadine 10mg", "Loratadine", "Antihistamine", "Tablet", 83, "2025-09-25", 40, false) ]
  }

  // ---------------------------------------------------------------- search

  /** The search test on three text fields: the lowercased term occurs in one of them. */
  predicate FieldsMatch(name: string, genericName: string, category: string, term: string)
  {
    var t := ToLower(term);
    || Includes(ToLower(name), t)
    || Includes(ToLower(genericName), t)
    || Includes(ToLower(category), t)
  }

  predicate Matches(m: SampleMedication, term: string)
  {
    FieldsMatch(m.name, m.genericName, m.category, term)
  }

  /** `filteredMedications`: the medications the search term matches, in list order. */
  function FilterMedications(meds: seq<SampleMedication>, term: string): (r: seq<SampleMedication>)
    ensures forall m :: m in r <==> m in meds && Matches(m, term)
    ensures IsSubsequence(r, meds)
  {
    var keep := (m: SampleMedication) => Matches(m, term);
    FilterIsSubsequence(meds, keep);
    Filter(meds, keep)
  }

  /** The search ignores the case of the term. */
  lemma MatchesIgnoresTermCase(m: SampleMedication, term: string)
    ensures Matches(m, term) <==> Matches(m, ToLower(term))
  {
    ToLowerIdempotent(term);
  }

  /** Every text field contains the empty string. */
  lemma EmptyTermMatches(name: string, genericName: string, category: string)
    ensures FieldsMatch(name, genericName, category, "")
  {
    assert ToLower("") == "";
    IncludesEmpty(ToLower(name));
  }

  /** An empty search box shows the whole list. */
  lemma EmptyTermKeepsAll(meds: seq<SampleMedication>)
    ensures FilterMedications(meds, "") == meds
  {
    var keep := (m: SampleMedication) => Matches(m, "");
    forall i | 0 <= i < |meds| ensures keep(meds[i]) {
      EmptyTermMatches(meds[i].name, meds[i].genericName, meds[i].category);
    }
    FilterKeepsAll(meds, keep);
  }

  // ------------------------------------------------------------ pagination

  const ITEMS_PER_PAGE: int := 10

  function Min(a: int, b: int): int
  {
    if a <= b then a else b
  }

  function IndexOfLastItem(page: int): int
  {
    page * ITEMS_PER_PAGE
  }

  function IndexOfFirstItem(page: int): int
  {
    IndexOfLastItem(page) - ITEMS_PER_PAGE
  }

  /** `currentItems`: the slice of the filtered list shown on `page`; never more than ten. */
  function CurrentItems<T>(items: seq<T>, page: int): (shown: seq<T>)
    ensures |shown| <= ITEMS_PER_PAGE
  {
    var first, last := IndexOfFirstItem(page), IndexOfLastItem(page);
    var from, to := SliceIndex(first, |items|), SliceIndex(last, |items|);
    assert to - from <= ITEMS_PER_PAGE;
    Slice(items, first, last)
  }

  /** `totalPages`: the fewest pages of ten that hold `n` items. */
  function TotalPages(n: nat): (t: nat)
    ensures (t - 1) * ITEMS_PER_PAGE < n <= t * ITEMS_PER_PAGE
    ensures t == 0 <==> n == 0
  {
    CeilDivNat(n, ITEMS_PER_PAGE);
    CeilDiv(n, ITEMS_PER_PAGE)
  }

  /** Page `page` (from 1) is the window `[(page-1)*10, page*10)`, clipped to the list. */
  lemma PageWindow<T>(items: seq<T>, page: int)
    requires page >= 1
    ensures Min((page - 1) * ITEMS_PER_PAGE, |items|) <= Min(page * ITEMS_PER_PAGE, |items|)
    ensures CurrentItems(items, page) == items[Min((page - 1) * ITEMS_PER_PAGE, |items|)..Min(page * ITEMS_PER_PAGE, |items|)]
  {
  }

  /** A page is empty exactly when it lies beyond the last page. */
  lemma PageEmptyIffBeyondLast<T>(items: seq<T>, page: int)
    requires page >= 1
    ensures CurrentItems(items, page) == [] <==> page > TotalPages(|items|)
  {
    var t := TotalPages(|items|);
    PageWindow(items, page);
    if page > t {
      MulLeft(t, page - 1, ITEMS_PER_PAGE);
    } else {
      MulLeft(page - 1, t - 1, ITEMS_PER_PAGE);
      assert (page - 1) * ITEMS_PER_PAGE < |items|;
    }
  }

  /** Every page before the last is full. */
  lemma FullPagesBeforeLast<T>(items: seq<T>, page: int)
    requires 1 <= page < TotalPages(|items|)
    ensures |CurrentItems(items, page)| == ITEMS_PER_PAGE
  {
    PageWindow(items, page);
    MulLeft(page, TotalPages(|items|) - 1, ITEMS_PER_PAGE);
  }

  /** Pages `page`, `page + 1`, ... up to the last one, concatenated. */
  function PagesFrom<T>(items: seq<T>, page: int): seq<T>
    decreases TotalPages(|items|) + 1 - page
  {
    if page > TotalPages(|items|) then [] else CurrentItems(items, page) + PagesFrom(items, page + 1)
  }

  /** Pages 1 to `totalPages`, concatenated. */
  function AllPages<T>(items: seq<T>): seq<T>
  {
    PagesFrom(items, 1)
  }

  lemma {:induction false} PagesFromIsSuffix<T>(items: seq<T>, page: int)
    requires page >= 1
    ensures PagesFrom(items, page) == items[Min((page - 1) * ITEMS_PER_PAGE, |items|)..]
    decreases TotalPages(|items|) + 1 - page
  {
    var t := TotalPages(|items|);
    if page > t {
      MulLeft(t, page - 1, ITEMS_PER_PAGE);
      assert PagesFrom(items, page) == [];
    } else {
      var a, b := Min((page - 1) * ITEMS_PER_PAGE, |items|), Min(page * ITEMS_PER_PAGE, |items|);
      assert (page + 1 - 1) * ITEMS_PER_PAGE == page * ITEMS_PER_PAGE;
      PagesFromIsSuffix(items, page + 1);
      assert PagesFrom(items, page + 1) == items[b..];
      PageWindow(items, page);
      assert CurrentItems(items, page) == items[a..b];
      assert PagesFrom(items, page) == CurrentItems(items, page) + PagesFrom(items, page + 1);
      assert items[a..] == items[a..b] + items[b..];
    }
  }

  /** Paging loses nothing and repeats nothing: the pages together are the list. */
  lemma AllPagesReproduce<T>(items: seq<T>)
    ensures AllPages(items) == items
  {
    PagesFromIsSuffix(items, 1);
  }

  /** The "Showing" number. */
  function ShowingFrom(page: int): int
  {
    IndexOfFirstItem(page) + 1
  }

  /** The "to" number. */
  function ShowingTo(page: int, n: nat): int
  {
    if IndexOfLastItem(page) > n then n else IndexOfLastItem(page)
  }

  /** On an existing page the label gives the 1-based positions of its first and last rows. */
  lemma ShowingLabelDescribesPage<T>(items: seq<T>, page: int)
    requires 1 <= page <= TotalPages(|items|)
    ensures 1 <= ShowingFrom(page) <= ShowingTo(page, |items|) <= |items|
    ensures CurrentItems(items, page) == items[ShowingFrom(page) - 1..ShowingTo(page, |items|)]
  {
    PageWindow(items, page);
    MulLeft(page - 1, TotalPages(|items|) - 1, ITEMS_PER_PAGE);
  }

  /** Beyond the last page the label runs backwards ("Showing 1 to 0 of 0" on an empty list). */
  lemma ShowingLabelBeyondLast(page: int, n: nat)
    requires page >= 1 && page > TotalPages(n)
    ensures ShowingFrom(page) > ShowingTo(page, n)
  {
    MulLeft(TotalPages(n), page - 1, ITEMS_PER_PAGE);
  }

  // --------------------------------------------------------------- buttons

  /** `disabled={currentPage === 1}`. */
  predicate PrevDisabled(page: int)
  {
    page == 1
  }

  /** `disabled={currentPage === totalPages}`, as written. */
  predicate NextDisabled(page: int, totalPages: nat)
  {
    page == totalPages
  }

  /** Previous, when it can be pressed, moves to a page that exists in any list. */
  lemma PrevStaysOnAPage<T>(items: seq<T>, page: int)
    requires 1 <= page <= TotalPages(|items|) && !PrevDisabled(page)
    ensures 1 <= page - 1 && CurrentItems(items, page - 1) != []
  {
    PageEmptyIffBeyondLast(items, page - 1);
  }

  /**
   * As written, Next is enabled on the first page of an empty result list, and pressing it
   * shows page 2, which is empty; from there Next is never disabled again.
   */
  lemma NextEnabledOnEmptyResults<T>()
    ensures TotalPages(0) == 0
    ensures !NextDisabled(1, TotalPages(0))
    ensures CurrentItems<T>([], 2) == []
    ensures forall page :: page >= 1 ==> !NextDisabled(page, TotalPages(0))
  {
  }

  /** The evidently intended rule: Next is disabled on the last page and beyond it. */
  predicate NextDisabledCorrected(page: int, totalPages: nat)
  {
    page >= totalPages
  }

  /** Under the corrected rule, an enabled Next always leads to a page with rows. */
  lemma CorrectedNextLeadsToRows<T>(items: seq<T>, page: int)
    requires page >= 1 && !NextDisabledCorrected(page, TotalPages(|items|))
    ensures CurrentItems(items, page + 1) != []
  {
    PageEmptyIffBeyondLast(items, page + 1);
  }

  /** The corrected rule agrees with the written one on every page that exists. */
  lemma CorrectedAgreesOnExistingPages(page: int, totalPages: nat)
    requires 1 <= page <= totalPages
    ensures NextDisabledCorrected(page, totalPages) <==> NextDisabled(page, totalPages)
  {
  }

  // ---------------------------------------------------------------- expiry

  /** What the expiry badge shows, apart from the formatted date. */
  datatype ExpiryInfo = ExpiryInfo(daysLeft: int, isExpiringSoon: bool)

  /** `getExpiryInfo`: whole days left, rounded up, and whether they are at most 30. */
  function GetExpiryInfo(expiry: int, today: int): (info: ExpiryInfo)
    ensures (info.daysLeft - 1) * MS_PER_DAY < expiry - today <= info.daysLeft * MS_PER_DAY
    ensures info.isExpiringSoon <==> expiry - today <= EXPIRY_WINDOW_DAYS * MS_PER_DAY
  {
    var days := CeilDiv(expiry - today, MS_PER_DAY);
    CeilDivAtMost(expiry - today, MS_PER_DAY, EXPIRY_WINDOW_DAYS);
    ExpiryInfo(days, days <= EXPIRY_WINDOW_DAYS)
  }

  /** The view's badge and the stored medication's `isExpiringSoon` virtual agree. */
  lemma ExpiryInfoMatchesVirtual(m: Medication, now: int)
    ensures GetExpiryInfo(m.expirationDate, now).daysLeft == DaysLeft(m.expirationDate, now)
    ensures GetExpiryInfo(m.expirationDate, now).isExpiringSoon <==> IsExpiringSoon(m, now)
  {
    ExpiringSoonIffWithinWindow(m, now);
  }

  // ----------------------------------------------------------------- state

  /** The component's state: the search box and the current page over the sample list. */
  class InventoryPage {
    const medications: seq<SampleMedication>
    var searchTerm: string
    var currentPage: int

    /** Every way of changing the page keeps it at 1 or above. */
    ghost predicate Valid()
      reads this
    {
      currentPage >= 1
    }

    constructor ()
      ensures Valid()
      ensures medications == SampleMedications() && searchTerm == "" && currentPage == 1
    {
      medications := SampleMedications();
      searchTerm := "";
      currentPage := 1;
    }

    function Filtered(): seq<SampleMedication>
      reads this
    {
      FilterMedications(medications, searchTerm)
    }

    function PageCount(): nat
      reads this
    {
      TotalPages(|Filtered()|)
    }

    function Shown(): seq<SampleMedication>
      reads this
    {
      CurrentItems(Filtered(), currentPage)
    }

    /** The search box's `onChange`: the term changes, the page does not. */
    method SetSearchTerm(term: string)
      modifies this
      ensures searchTerm == term && currentPage == old(currentPage)
    {
      searchTerm := term;
    }

    /** `handleChangePage`. */
    method ChangePage(page: int)
      modifies this
      ensures currentPage == page && searchTerm == old(searchTerm)
    {
      currentPage := page;
    }

    /** Previous: a disabled button does nothing. */
    method ClickPrevious()
      requires Valid()
      modifies this
      ensures Valid() && searchTerm == old(searchTerm)
      ensures currentPage == if PrevDisabled(old(currentPage)) then old(currentPage) else old(currentPage) - 1
    {
      if !PrevDisabled(currentPage) {
        ChangePage(currentPage - 1);
      }
    }

    /** Next, with the button's rule as written. */
    method ClickNext()
      requires Valid()
      modifies this
      ensures Valid() && searchTerm == old(searchTerm)
      ensures currentPage == if NextDisabled(old(currentPage), old(PageCount())) then old(currentPage) else old(currentPage) + 1
    {
      if !NextDisabled(currentPage, PageCount()) {
        ChangePage(currentPage + 1);
      }
    }

    /** The numbered buttons: button `i` (from 0) shows page `i + 1`, which has rows. */
    method ClickPageNumber(i: nat)
      requires Valid() && i < PageCount()
      modifies this
      ensures Valid() && searchTerm == old(searchTerm) && currentPage == i + 1
      ensures Shown() != []
    {
      ChangePage(i + 1);
      PageEmptyIffBeyondLast(Filtered(), currentPage);
    }
  }
}
