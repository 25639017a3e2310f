/**
 * The laptop list screen's state and operations: the filter predicate that
 * decides which laptops are listed, the filter toggles, the comparison
 * selection (at most four laptops), and the staging list of links.
 */
module LaptopSection {
  import opened Types
  import opened Text
  import Seqs

  /** The filter panel's state; an empty list means "no restriction" for that category. */
  datatype Filters = Filters(
    brands: seq<string>,
    ram: seq<int>,
    display: seq<string>,
    storage: seq<int>,
    cpuBrand: seq<string>,
    weightRange: seq<string>,
    priceRange: int)

  /** The initial (and reset) filter state: no restriction, price cap 600000. */
  const DefaultFilters: Filters := Filters([], [], [], [], [], [], 600000)

  /** The filter lists that hold strings. */
  datatype TextCategory = Brands | Display | CpuBrand | WeightRange

  /** The filter lists that hold numbers. */
  datatype NumberCategory = Ram | StorageCapacity

  function TextList(f: Filters, c: TextCategory): seq<string>
  {
    match c
    case Brands => f.brands
    case Display => f.display
    case CpuBrand => f.cpuBrand
    case WeightRange => f.weightRange
  }

  function NumberList(f: Filters, c: NumberCategory): seq<int>
  {
    match c
    case Ram => f.ram
    case StorageCapacity => f.storage
  }

  /** `{ ...prev, [category]: s }` for a string list. */
  function WithTextList(f: Filters, c: TextCategory, s: seq<string>): (r: Filters)
    ensures TextList(r, c) == s
    ensures forall d :: d != c ==> TextList(r, d) == TextList(f, d)
    ensures forall d :: NumberList(r, d) == NumberList(f, d)
    ensures r.priceRange == f.priceRange
  {
    match c
    case Brands => f.(brands := s)
    case Display => f.(display := s)
    case CpuBrand => f.(cpuBrand := s)
    case WeightRange => f.(weightRange := s)
  }

  /** `{ ...prev, [category]: s }` for a number list. */
  function WithNumberList(f: Filters, c: NumberCategory, s: seq<int>): (r: Filters)
    ensures NumberList(r, c) == s
    ensures forall d :: d != c ==> NumberList(r, d) == NumberList(f, d)
    ensures forall d :: TextList(r, d) == TextList(f, d)
    ensures r.priceRange == f.priceRange
  {
    match c
    case Ram => f.(ram := s)
    case StorageCapacity => f.(storage := s)
  }

  /** `matchSearch`: the lower-cased query occurs in the lower-cased name or brand. */
  predicate SearchMatches(l: Laptop, query: string)
    ensures query == "" ==> SearchMatches(l, query)
    ensures SearchMatches(l, query) ==> |query| <= |l.name| || |query| <= |l.brand|
  {
    EmptyIncluded(Lower(l.name));
    IncludesAtOffset(Lower(l.name), Lower(query));
    IncludesAtOffset(Lower(l.brand), Lower(query));
    Includes(Lower(l.name), Lower(query)) || Includes(Lower(l.brand), Lower(query))
  }

  /** Which display sizes a display tag admits; an unrecognised tag admits every size. */
  predicate DisplayTagAdmits(tag: string, size: real)
    ensures tag in DisplayTags ==> (DisplayTagAdmits(tag, size) <==> tag == DisplayBucket(size))
    ensures tag !in DisplayTags ==> DisplayTagAdmits(tag, size)
  {
    if tag == "small" then size < 14.0
    else if tag == "medium" then size >= 14.0 && size <= 15.6
    else if tag == "large" then size > 15.6
    else true
  }

  /** Which weights a weight tag admits; an unrecognised tag admits every weight. */
  predicate WeightTagAdmits(tag: string, weight: real)
    ensures tag in WeightTags ==> (WeightTagAdmits(tag, weight) <==> tag == WeightBucket(weight))
    ensures tag !in WeightTags ==> WeightTagAdmits(tag, weight)
  {
    if tag == "ultralight" then weight < 1.4
    else if tag == "balanced" then weight >= 1.4 && weight <= 1.9
    else if tag == "heavy" then weight > 1.9
    else true
  }

  const DisplayTags: seq<string> := ["small", "medium", "large"]
  const WeightTags: seq<string> := ["ultralight", "balanced", "heavy"]

  /** The one display tag a size belongs to. */
  function DisplayBucket(size: real): (tag: string)
    ensures tag in DisplayTags
  {
    if size < 14.0 then "small" else if size <= 15.6 then "medium" else "large"
  }

  /** The one weight tag a weight belongs to. */
  function WeightBucket(weight: real): (tag: string)
    ensures tag in WeightTags
  {
    if weight < 1.4 then "ultralight" else if weight <= 1.9 then "balanced" else "heavy"
  }

  /** The predicate `filteredLaptops` applies to each laptop. */
  predicate Matches(l: Laptop, query: string, f: Filters)
    ensures Matches(l, query, f) ==> SearchMatches(l, query) && l.price <= f.priceRange
    ensures Matches(l, query, f) ==>
      f.display == [] || DisplayBucket(l.displaySize) in f.display || exists d :: d in f.display && d !in DisplayTags
    ensures Matches(l, query, f) ==>
      f.weightRange == [] || WeightBucket(l.weight) in f.weightRange || exists w :: w in f.weightRange && w !in WeightTags
  {
    && SearchMatches(l, query)
    && (f.brands == [] || l.brand in f.brands)
    && (f.ram == [] || l.ram in f.ram)
    && (f.storage == [] || l.storageSize in f.storage)
    && l.price <= f.priceRange
    && (f.display == [] || exists d :: d in f.display && DisplayTagAdmits(d, l.displaySize))
    && (f.cpuBrand == [] || exists c :: c in f.cpuBrand && Includes(l.cpu, c))
    && (f.weightRange == [] || exists w :: w in f.weightRange && WeightTagAdmits(w, l.weight))
  }

  /** `filteredLaptops`: the matching laptops, in catalog order. */
  function FilteredLaptops(laptops: seq<Laptop>, query: string, f: Filters): (r: seq<Laptop>)
    ensures Seqs.IsSubsequence(r, laptops)
    ensures forall l :: l in r <==> l in laptops && Matches(l, query, f)
    ensures forall l :: multiset(r)[l] == if Matches(l, query, f) then multiset(laptops)[l] else 0
  {
    Seqs.FilterIsSubsequence(laptops, (l: Laptop) => Matches(l, query, f));
    Seqs.FilterCounts(laptops, (l: Laptop) => Matches(l, query, f));
    Seqs.Filter(laptops, (l: Laptop) => Matches(l, query, f))
  }

  /** The search ignores the case of the query, and the empty query matches everything. */
  lemma SearchIgnoresCase(l: Laptop, query: string)
    ensures SearchMatches(l, query) <==> SearchMatches(l, Lower(query))
    ensures SearchMatches(l, "")
  {
    LowerIdempotent(query);
    assert Lower("") == "";
    EmptyIncluded(Lower(l.name));
  }

  /** With every list empty and no query, only the inclusive price cap restricts. */
  lemma OnlyPriceCapByDefault(l: Laptop, cap: int)
    ensures Matches(l, "", DefaultFilters.(priceRange := cap)) <==> l.price <= cap
  {
    SearchIgnoresCase(l, "");
  }

  /** Emptying one string list never hides a laptop that was listed. */
  lemma EmptyingTextListWidens(l: Laptop, query: string, f: Filters, c: TextCategory)
    requires Matches(l, query, f)
    ensures Matches(l, query, WithTextList(f, c, []))
  {
    match c
    case Brands => assert WithTextList(f, c, []) == f.(brands := []);
    case Display => assert WithTextList(f, c, []) == f.(display := []);
    case CpuBrand => assert WithTextList(f, c, []) == f.(cpuBrand := []);
    case WeightRange => assert WithTextList(f, c, []) == f.(weightRange := []);
  }

  /** Emptying one number list never hides a laptop that was listed. */
  lemma EmptyingNumberListWidens(l: Laptop, query: string, f: Filters, c: NumberCategory)
    requires Matches(l, query, f)
    ensures Matches(l, query, WithNumberList(f, c, []))
  {
    match c
    case Ram => assert WithNumberList(f, c, []) == f.(ram := []);
    case StorageCapacity => assert WithNumberList(f, c, []) == f.(storage := []);
  }

  /** `toggleFilter` on one list: drop every copy of a present value, append an absent one. */
  function Toggle<T(==,!new)>(s: seq<T>, v: T): (r: seq<T>)
    ensures v in s ==> v !in r && forall x :: x in r <==> x in s && x != v
    ensures v in s ==> forall x :: multiset(r)[x] == if x == v then 0 else multiset(s)[x]
    ensures v !in s ==> r == s + [v]
  {
    Seqs.FilterCounts(s, (x: T) => x != v);
    if v in s then Seqs.Filter(s, (x: T) => x != v) else s + [v]
  }

  /** Toggling an absent value twice restores the list. */
  lemma {:induction false} ToggleTwiceRestores<T(!new)>(s: seq<T>, v: T)
    requires v !in s
    ensures Toggle(Toggle(s, v), v) == s
  {
    var keep := (x: T) => x != v;
    Seqs.FilterConcat(s, [v], keep);
    Seqs.FilterKeepsAll(s, keep);
    Seqs.FilterKeepsNone([v], keep);
  }

  /** Toggling never introduces a duplicate. */
  lemma ToggleKeepsNoDup<T(!new)>(s: seq<T>, v: T)
    requires Seqs.NoDup(s)
    ensures Seqs.NoDup(Toggle(s, v))
  {
    if v in s {
      Seqs.FilterKeepsNoDup(s, (x: T) => x != v);
    }
  }

  /** Every filter list is free of duplicates. */
  predicate FiltersDistinct(f: Filters)
  {
    Seqs.NoDup(f.brands) && Seqs.NoDup(f.ram) && Seqs.NoDup(f.display)
    && Seqs.NoDup(f.storage) && Seqs.NoDup(f.cpuBrand) && Seqs.NoDup(f.weightRange)
  }

  /** `selectedLaptops.find(l => l.id === id)` finds something. */
  predicate HasId(sel: seq<Laptop>, id: string)
  {
    exists k :: 0 <= k < |sel| && sel[k].id == id
  }

  /** No two selected laptops share an id. */
  predicate UniqueIds(sel: seq<Laptop>)
  {
    Seqs.DistinctBy(sel, (l: Laptop) => l.id)
  }

  /** The largest number of laptops the comparison can hold. */
  const MaxSelected: int := 4

  /** Dropping laptops from a selection keeps its ids unique. */
  lemma FilterKeepsUniqueIds(sel: seq<Laptop>, keep: Laptop -> bool)
    ensures UniqueIds(sel) ==> UniqueIds(Seqs.Filter(sel, keep))
  {
    if UniqueIds(sel) {
      Seqs.FilterKeepsDistinctBy(sel, keep, (x: Laptop) => x.id);
    }
  }

  /** `selectedLaptops.filter(l => l.id !== id)`. */
  function Deselect(sel: seq<Laptop>, id: string): (r: seq<Laptop>)
    ensures !HasId(r, id)
    ensures forall x :: x in r <==> x in sel && x.id != id
    ensures |r| <= |sel|
    ensures forall x :: multiset(r)[x] == if x.id == id then 0 else multiset(sel)[x]
    ensures UniqueIds(sel) ==> UniqueIds(r)
    ensures Seqs.IsSubsequence(r, sel)
  {
    var r := Seqs.Filter(sel, (x: Laptop) => x.id != id);
    Seqs.FilterIsSubsequence(sel, (x: Laptop) => x.id != id);
    FilterKeepsUniqueIds(sel, (x: Laptop) => x.id != id);
    Seqs.FilterCounts(sel, (x: Laptop) => x.id != id);
    assert forall k :: 0 <= k < |r| ==> r[k] in r;
    r
  }

  /** `toggleSelection`: deselect a laptop whose id is selected, else add it while fewer than 4 are selected. */
  function ToggleSelected(sel: seq<Laptop>, l: Laptop): (r: seq<Laptop>)
    ensures HasId(sel, l.id) ==> r == Deselect(sel, l.id)
    ensures HasId(sel, l.id) ==> !HasId(r, l.id) && forall x :: x in r <==> x in sel && x.id != l.id
    ensures !HasId(sel, l.id) && |sel| < MaxSelected ==> r == sel + [l]
    ensures !HasId(sel, l.id) && |sel| >= MaxSelected ==> r == sel
    ensures |sel| <= MaxSelected ==> |r| <= MaxSelected
    ensures UniqueIds(sel) ==> UniqueIds(r)
  {
    if HasId(sel, l.id) then Deselect(sel, l.id)
    else if |sel| < MaxSelected then sel + [l]
    else sel
  }

  /** Every staged link is non-empty, already trimmed, and staged once. */
  predicate WellStaged(staged: seq<string>)
  {
    Seqs.NoDup(staged) && forall x :: x in staged ==> x != "" && Trim(x) == x
  }

  /** Whether `addLinkToStage` takes the input: its trimmed form is non-empty and not yet staged. */
  predicate StageAccepts(staged: seq<string>, input: string)
  {
    Trim(input) != "" && Trim(input) !in staged
  }

  /** Appending a trimmed, non-empty, new link keeps the staging list well formed. */
  lemma AppendKeepsWellStaged(staged: seq<string>, link: string)
    requires WellStaged(staged)
    requires link != "" && Trim(link) == link && link !in staged
    ensures WellStaged(staged + [link])
  {
    var r := staged + [link];
    forall i, j | 0 <= i < j < |r| ensures r[i] != r[j] {
      assert r[i] == staged[i] && staged[i] in staged;
      if j < |staged| { assert r[j] == staged[j]; }
    }
    forall x | x in r ensures x != "" && Trim(x) == x {
      if x != link { assert x in staged; }
    }
  }

  /** `addLinkToStage`'s new staging list. */
  function Stage(staged: seq<string>, input: string): (r: seq<string>)
    ensures StageAccepts(staged, input) ==> r == staged + [Trim(input)]
    ensures !StageAccepts(staged, input) ==> r == staged
  {
    if StageAccepts(staged, input) then staged + [Trim(input)] else staged
  }

  /** Staging keeps the list free of duplicates, of empty links and of untrimmed links. */
  lemma StageKeepsWellStaged(staged: seq<string>, input: string)
    requires WellStaged(staged)
    ensures WellStaged(Stage(staged, input))
  {
    if StageAccepts(staged, input) {
      TrimIdempotent(input);
      AppendKeepsWellStaged(staged, Trim(input));
    }
  }

  /** `removeStagedLink` keeps the staging list well formed. */
  lemma UnstageKeepsWellStaged(staged: seq<string>, index: int)
    requires WellStaged(staged)
    ensures WellStaged(Seqs.RemoveAt(staged, index))
  {
    Seqs.RemoveAtKeepsNoDup(staged, index);
  }

  class Browser {
    var laptops: seq<Laptop>
    var selectedLaptops: seq<Laptop>
    var searchQuery: string
    var filters: Filters
    var urlInput: string
    var stagedLinks: seq<string>

    /** The invariants every operation keeps. */
    ghost predicate Valid()
      reads this
    {
      && |selectedLaptops| <= MaxSelected
      && UniqueIds(selectedLaptops)
      && FiltersDistinct(filters)
      && WellStaged(stagedLinks)
    }

    /** The screen starts from the catalog, nothing selected, no filters and nothing staged. */
    constructor (catalog: seq<Laptop>)
      ensures Valid()
      ensures laptops == catalog && selectedLaptops == [] && searchQuery == ""
      ensures filters == DefaultFilters && urlInput == "" && stagedLinks == []
      ensures forall l :: l in Listed() <==> l in catalog && l.price <= 600000
    {
      laptops := catalog;
      selectedLaptops := [];
      searchQuery := "";
      filters := DefaultFilters;
      urlInput := "";
      stagedLinks := [];
      forall l ensures Matches(l, "", DefaultFilters) <==> l.price <= 600000 {
        OnlyPriceCapByDefault(l, 600000);
      }
    }

    /** The laptops on screen. */
    function Listed(): (r: seq<Laptop>)
      reads this
      ensures Seqs.IsSubsequence(r, laptops)
      ensures forall l :: l in r <==> l in laptops && Matches(l, searchQuery, filters)
    {
      FilteredLaptops(laptops, searchQuery, filters)
    }

    /** The search box. */
    method SetSearchQuery(query: string)
      requires Valid()
      modifies this`searchQuery
      ensures Valid() && searchQuery == query
    {
      searchQuery := query;
    }

    /** The price slider, which yields a whole number. */
    method SetPriceRange(cap: int)
      requires Valid()
      modifies this`filters
      ensures Valid() && filters == old(filters).(priceRange := cap)
    {
      filters := filters.(priceRange := cap);
    }

    /** The reset button: every list emptied, the cap back to 600000. */
    method ResetFilters()
      requires Valid()
      modifies this`filters
      ensures Valid() && filters == DefaultFilters
    {
      filters := DefaultFilters;
    }

    /** `toggleFilter` on a string list; the other lists and the cap are unchanged. */
    method ToggleTextFilter(c: TextCategory, v: string)
      requires Valid()
      modifies this`filters
      ensures Valid()
      ensures filters == WithTextList(old(filters), c, Toggle(TextList(old(filters), c), v))
    {
      ToggleKeepsNoDup(TextList(filters, c), v);
      filters := WithTextList(filters, c, Toggle(TextList(filters, c), v));
      assert TextList(filters, Brands) == filters.brands && TextList(filters, Display) == filters.display;
      assert TextList(filters, CpuBrand) == filters.cpuBrand;
      assert TextList(filters, WeightRange) == filters.weightRange;
      assert NumberList(filters, Ram) == filters.ram && NumberList(filters, StorageCapacity) == filters.storage;
    }

    /** `toggleFilter` on a number list; the other lists and the cap are unchanged. */
    method ToggleNumberFilter(c: NumberCategory, v: int)
      requires Valid()
      modifies this`filters
      ensures Valid()
      ensures filters == WithNumberList(old(filters), c, Toggle(NumberList(old(filters), c), v))
    {
      ToggleKeepsNoDup(NumberList(filters, c), v);
      filters := WithNumberList(filters, c, Toggle(NumberList(filters, c), v));
      assert TextList(filters, Brands) == filters.brands && TextList(filters, Display) == filters.display;
      assert TextList(filters, CpuBrand) == filters.cpuBrand;
      assert TextList(filters, WeightRange) == filters.weightRange;
      assert NumberList(filters, Ram) == filters.ram && NumberList(filters, StorageCapacity) == filters.storage;
    }

    /** `toggleSelection`. */
    method ToggleSelection(l: Laptop)
      requires Valid()
      modifies this`selectedLaptops
      ensures Valid()
      ensures selectedLaptops == ToggleSelected(old(selectedLaptops), l)
    {
      selectedLaptops := ToggleSelected(selectedLaptops, l);
    }

    /** The comparison tray's remove button: deselects by id. */
    method RemoveFromTray(id: string)
      requires Valid()
      modifies this`selectedLaptops
      ensures Valid()
      ensures selectedLaptops == Deselect(old(selectedLaptops), id)
    {
      selectedLaptops := Deselect(selectedLaptops, id);
    }

    /** The link input box. */
    method SetUrlInput(input: string)
      requires Valid()
      modifies this`urlInput
      ensures Valid() && urlInput == input
    {
      urlInput := input;
    }

    /** `addLinkToStage`: stage the trimmed input and clear the box, or do nothing. */
    method AddLinkToStage()
      requires Valid()
      modifies this`stagedLinks, this`urlInput
      ensures Valid()
      ensures stagedLinks == Stage(old(stagedLinks), old(urlInput))
      ensures urlInput == if StageAccepts(old(stagedLinks), old(urlInput)) then "" else old(urlInput)
    {
      var trimmed := Trim(urlInput);
      if trimmed != "" && trimmed !in stagedLinks {
        StageKeepsWellStaged(stagedLinks, urlInput);
        stagedLinks := Stage(stagedLinks, urlInput);
        urlInput := "";
      }
    }

    /** `removeStagedLink`: drop the link at `index`, keeping the others in order. */
    method RemoveStagedLink(index: int)
      requires Valid()
      modifies this`stagedLinks
      ensures Valid()
      ensures stagedLinks == Seqs.RemoveAt(old(stagedLinks), index)
    {
      UnstageKeepsWellStaged(stagedLinks, index);
      stagedLinks := Seqs.RemoveAt(stagedLinks, index);
    }
  }
}
