/** The local services directory: vendors narrowed by search, type, price range and
    minimum rating, then sorted by distance, rating or price, plus the price and
    type lookups.  Ratings and distances are kept in tenths. */
module LocalServices {
  import opened Seqs
  import opened Strings

  datatype VendorType =
    | Photographer | Videographer | MakeupArtist | HairStylist | Stylist
    | Location | Catering | Transportation | Other

  datatype PriceRange = Budget | Moderate | Premium | Luxury

  function PriceId(p: PriceRange): string {
    match p
    case Budget => "budget"
    case Moderate => "moderate"
    case Premium => "premium"
    case Luxury => "luxury"
  }

  datatype Vendor = Vendor(
    id: string, name: string, vendorType: VendorType,
    address: string, city: string, state: string, zipCode: string,
    phone: Option<string>, email: Option<string>, website: Option<string>,
    rating: int, reviewCount: int, priceRange: PriceRange,
    specialties: seq<string>, description: string, photos: seq<string>,
    isVerified: bool, distance: int)

  /** Search text, type (`None` is 'all'), price range id or 'all', minimum rating
      (0 means none). */
  datatype VendorFilters = VendorFilters(
    searchTerm: string, selectedType: Option<VendorType>, selectedPriceRange: string,
    selectedRating: int)

  const DefaultFilters: VendorFilters := VendorFilters("", None, "all", 0)

  datatype SortBy = ByDistance | ByRating | ByPrice

  /** `priceOrder` */
  function PriceRank(p: PriceRange): (r: int)
    ensures 1 <= r <= 4
  {
    match p
    case Budget => 1
    case Moderate => 2
    case Premium => 3
    case Luxury => 4
  }

  lemma PriceRankOrder()
    ensures PriceRank(Budget) < PriceRank(Moderate) < PriceRank(Premium) < PriceRank(Luxury)
  {
  }

  // ---------------------------------------------------------------------------
  // The four filter stages; an inactive stage keeps every vendor.

  predicate SearchHit(v: Vendor, term: string) {
    Contains(Lower(v.name), Lower(term)) || Contains(Lower(v.description), Lower(term)) ||
    exists k :: 0 <= k < |v.specialties| && Contains(Lower(v.specialties[k]), Lower(term))
  }

  predicate PassesSearch(v: Vendor, f: VendorFilters) {
    f.searchTerm == "" || SearchHit(v, f.searchTerm)
  }

  predicate PassesType(v: Vendor, f: VendorFilters) {
    f.selectedType.None? || v.vendorType == f.selectedType.value
  }

  predicate PassesPrice(v: Vendor, f: VendorFilters) {
    f.selectedPriceRange == "all" || PriceId(v.priceRange) == f.selectedPriceRange
  }

  predicate PassesRating(v: Vendor, f: VendorFilters) {
    f.selectedRating <= 0 || v.rating >= f.selectedRating
  }

  /** A vendor satisfies every active filter. */
  predicate Selected(v: Vendor, f: VendorFilters) {
    PassesSearch(v, f) && PassesType(v, f) && PassesPrice(v, f) && PassesRating(v, f)
  }

  function SearchStage(f: VendorFilters): Vendor -> bool { v => PassesSearch(v, f) }
  function TypeStage(f: VendorFilters): Vendor -> bool { v => PassesType(v, f) }
  function PriceStage(f: VendorFilters): Vendor -> bool { v => PassesPrice(v, f) }
  function RatingStage(f: VendorFilters): Vendor -> bool { v => PassesRating(v, f) }
  function SelectedStage(f: VendorFilters): Vendor -> bool { v => Selected(v, f) }

  /** The comparator of each sort choice as an ascending key. */
  function KeyFor(s: SortBy): Vendor -> int {
    match s
    case ByDistance => (v: Vendor) => v.distance
    case ByRating => (v: Vendor) => -v.rating
    case ByPrice => (v: Vendor) => PriceRank(v.priceRange)
  }

  /** The list the effect shows. */
  function Results(vs: seq<Vendor>, f: VendorFilters, s: SortBy): (r: seq<Vendor>)
    ensures forall v :: v in r ==> v in vs && Selected(v, f)
    ensures multiset(r) == multiset(Filter(vs, SelectedStage(f)))
    ensures forall v :: v in vs ==> multiset(r)[v] == if Selected(v, f) then multiset(vs)[v] else 0
    ensures SortedBy(r, KeyFor(s))
  {
    var t := Filter(vs, SelectedStage(f));
    FilterCount(vs, SelectedStage(f));
    var r := StableSort(t, KeyFor(s));
    assert forall v :: v in r ==> v in multiset(r);
    assert forall v :: v in r ==> v in t;
    assert forall v :: v in t ==> SelectedStage(f)(v);
    r
  }

  /** Every vendor meeting every active filter is shown. */
  lemma ResultsComplete(vs: seq<Vendor>, f: VendorFilters, s: SortBy, v: Vendor)
    requires v in vs && Selected(v, f)
    ensures v in Results(vs, f, s)
  {
    assert v in Filter(vs, SelectedStage(f));
    assert v in multiset(Results(vs, f, s));
  }

  /** What "sorted" means for each choice. */
  lemma ResultsOrder(vs: seq<Vendor>, f: VendorFilters, s: SortBy, i: nat, j: nat)
    requires i < j < |Results(vs, f, s)|
    ensures var r := Results(vs, f, s);
      (s == ByDistance ==> r[i].distance <= r[j].distance) &&
      (s == ByRating ==> r[i].rating >= r[j].rating) &&
      (s == ByPrice ==> PriceRank(r[i].priceRange) <= PriceRank(r[j].priceRange))
  {
    var r := Results(vs, f, s);
    assert KeyFor(s)(r[i]) <= KeyFor(s)(r[j]);
  }

  /** With every filter at its default the result is a reordering of all vendors. */
  lemma DefaultsKeepAll(vs: seq<Vendor>, s: SortBy)
    ensures multiset(Results(vs, DefaultFilters, s)) == multiset(vs)
  {
    FilterAll(vs, SelectedStage(DefaultFilters));
  }

  /** The four successive filters of the effect select exactly `Selected`. */
  lemma StagesCompose(vs: seq<Vendor>, f: VendorFilters)
    ensures Filter(Filter(Filter(Filter(vs, SearchStage(f)), TypeStage(f)), PriceStage(f)), RatingStage(f))
      == Filter(vs, SelectedStage(f))
  {
    var st := (v: Vendor) => PassesSearch(v, f) && PassesType(v, f);
    var stp := (v: Vendor) => PassesSearch(v, f) && PassesType(v, f) && PassesPrice(v, f);
    FilterFilter(vs, SearchStage(f), TypeStage(f), st);
    FilterFilter(vs, st, PriceStage(f), stp);
    FilterFilter(vs, stp, RatingStage(f), SelectedStage(f));
  }

  /** A stage that is switched off keeps the list as it is. */
  lemma InactiveStage(vs: seq<Vendor>, p: Vendor -> bool)
    requires forall v :: p(v)
    ensures Filter(vs, p) == vs
  {
    FilterAll(vs, p);
  }

  /** One `if (...) filtered = filtered.filter(...)` step of the effect: a filter
      that is switched off keeps the very same list. */
  method FilterIf(s: seq<Vendor>, active: bool, p: Vendor -> bool) returns (r: seq<Vendor>)
    requires !active ==> forall v :: p(v)
    ensures r == Filter(s, p)
    ensures !active ==> r == s
  {
    if active {
      r := Filter(s, p);
    } else {
      InactiveStage(s, p);
      r := s;
    }
  }

  /** The body of the effect: the four conditional filters, then the sort. */
  method FilterAndSort(vendors: seq<Vendor>, f: VendorFilters, sortBy: SortBy) returns (sorted: seq<Vendor>)
    ensures sorted == Results(vendors, f, sortBy)
  {
    var s1 := FilterIf(vendors, f.searchTerm != "", SearchStage(f));
    var s2 := FilterIf(s1, f.selectedType.Some?, TypeStage(f));
    var s3 := FilterIf(s2, f.selectedPriceRange != "all", PriceStage(f));
    var filtered := FilterIf(s3, f.selectedRating > 0, RatingStage(f));
    StagesCompose(vendors, f);
    sorted := StableSort(filtered, KeyFor(sortBy));
  }

  // ---------------------------------------------------------------------------
  // Lookups.

  /** `getPriceRangeDescription` over the `priceRanges` table. */
  function PriceDescription(priceRange: string): (r: string)
    ensures priceRange == "budget" ==> r == "$"
    ensures priceRange == "moderate" ==> r == "$$"
    ensures priceRange == "premium" ==> r == "$$$"
    ensures priceRange == "luxury" ==> r == "$$$$"
    ensures priceRange !in {"budget", "moderate", "premium", "luxury"} ==> r == ""
  {
    if priceRange == "budget" then "$"
    else if priceRange == "moderate" then "$$"
    else if priceRange == "premium" then "$$$"
    else if priceRange == "luxury" then "$$$$"
    else ""
  }

  /** One dollar sign per rank. */
  lemma PriceDescriptionLength(p: PriceRange)
    ensures |PriceDescription(PriceId(p))| == PriceRank(p)
  {
  }

  const DefaultTypeColor: string := "bg-gray-100 text-gray-800"

  /** The `vendorTypes` table: a colour for every type listed there. */
  function TypeColorEntry(t: VendorType): Option<string> {
    match t
    case Photographer => Some("bg-blue-100 text-blue-800")
    case Videographer => Some("bg-purple-100 text-purple-800")
    case MakeupArtist => Some("bg-pink-100 text-pink-800")
    case HairStylist => Some("bg-green-100 text-green-800")
    case Stylist => Some("bg-yellow-100 text-yellow-800")
    case Location => Some("bg-gray-100 text-gray-800")
    case Catering => Some("bg-red-100 text-red-800")
    case Transportation => Some("bg-indigo-100 text-indigo-800")
    case Other => None
  }

  /** `getVendorTypeColor` */
  function TypeColor(t: VendorType): (r: string)
    ensures TypeColorEntry(t).None? ==> r == DefaultTypeColor
    ensures TypeColorEntry(t).Some? ==> r == TypeColorEntry(t).value
  {
    TypeColorEntry(t).GetOr(DefaultTypeColor)
  }

  /** 'other' has no table entry and falls back to gray. */
  lemma OtherIsGray()
    ensures TypeColor(Other) == DefaultTypeColor
    ensures forall t :: TypeColor(t) == DefaultTypeColor <==> t == Other || t == Location
  {
  }

  // ---------------------------------------------------------------------------

  class LocalServices {
    var vendors: seq<Vendor>
    var filteredVendors: seq<Vendor>
    var filters: VendorFilters
    var sortBy: SortBy

    /** The mount effect: both lists start as the mock vendors. */
    constructor (mock: seq<Vendor>)
      ensures vendors == mock && filteredVendors == mock
      ensures filters == DefaultFilters && sortBy == ByDistance
    {
      vendors := mock;
      filteredVendors := mock;
      filters := DefaultFilters;
      sortBy := ByDistance;
    }

    predicate NoFilterActive()
      reads this
    {
      filters.searchTerm == "" && filters.selectedType.None? &&
      filters.selectedPriceRange == "all" && filters.selectedRating <= 0
    }

    /** The filter and sort effect.  With no active filter the sorted array is the
        `vendors` array itself, so the vendor list is reordered as well. */
    method ApplyFilters()
      modifies this`vendors, this`filteredVendors
      ensures filteredVendors == Results(old(vendors), filters, sortBy)
      ensures NoFilterActive() ==> vendors == filteredVendors
      ensures !NoFilterActive() ==> vendors == old(vendors)
    {
      var sorted := FilterAndSort(vendors, filters, sortBy);
      if NoFilterActive() {
        vendors := sorted;
      }
      filteredVendors := sorted;
    }

    /** A change of the filters re-runs the effect. */
    method SetFilters(f: VendorFilters)
      modifies this
      ensures filters == f && sortBy == old(sortBy)
      ensures filteredVendors == Results(old(vendors), f, sortBy)
      ensures NoFilterActive() ==> vendors == filteredVendors
      ensures !NoFilterActive() ==> vendors == old(vendors)
    {
      filters := f;
      ApplyFilters();
    }

    method SetSortBy(s: SortBy)
      modifies this
      ensures sortBy == s && filters == old(filters)
      ensures filteredVendors == Results(old(vendors), filters, s)
      ensures NoFilterActive() ==> vendors == filteredVendors
      ensures !NoFilterActive() ==> vendors == old(vendors)
    {
      sortBy := s;
      ApplyFilters();
    }

    /** Clear Filters: every filter back to its default, the sort choice kept. */
    method ClearFilters()
      modifies this
      ensures filters == DefaultFilters && sortBy == old(sortBy)
      ensures filteredVendors == Results(old(vendors), DefaultFilters, sortBy)
      ensures multiset(filteredVendors) == multiset(old(vendors))
      ensures vendors == filteredVendors
    {
      filters := DefaultFilters;
      ApplyFilters();
      DefaultsKeepAll(old(vendors), sortBy);
    }
  }
}
