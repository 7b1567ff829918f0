/** The blood-bank directory page: a two-dimension search over the list of banks. */
module BloodBanks {
  import opened JsText
  import opened Seqs
  import opened BloodStock

  /** A bank as listed; its distance (a floating-point number never used by the search) is omitted. */
  datatype BloodBank = BloodBank(
    id: string,
    name: string,
    address: string,
    city: string,
    phone: string,
    hours: string,
    availability: seq<StockEntry>)

  /** The two names the search inputs carry. */
  datatype SearchKey = Location | BloodType

  /** The page's `searchParams` state; `""` in a dimension means "no filter". */
  datatype SearchParams = SearchParams(location: string, bloodType: string)
  {
    function Get(key: SearchKey): string
    {
      match key
      case Location => location
      case BloodType => bloodType
    }

    /** `{...searchParams, [name]: value}`: only the named key changes. */
    function With(key: SearchKey, value: string): (p: SearchParams)
      ensures p.Get(key) == value
      ensures forall k :: k != key ==> p.Get(k) == Get(k)
    {
      match key
      case Location => this.(location := value)
      case BloodType => this.(bloodType := value)
    }
  }

  const NoSearch := SearchParams("", "")

  /** The location test: a case-insensitive substring of the city, the address or the name. */
  predicate LocationMatch(bank: BloodBank, location: string)
  {
    location == ""
      || IncludesIgnoringCase(bank.city, location)
      || IncludesIgnoringCase(bank.address, location)
      || IncludesIgnoringCase(bank.name, location)
  }

  /** The callback given to `availability.some`. */
  predicate Available(item: StockEntry, bloodType: string)
  {
    item.bloodType == bloodType && item.units > 0
  }

  /** `availability.some(...)`: some entry has exactly this type and units left. */
  function InStock(availability: seq<StockEntry>, bloodType: string): (b: bool)
    ensures b <==> exists i :: 0 <= i < |availability| && Available(availability[i], bloodType)
  {
    if availability == [] then false
    else Available(availability[0], bloodType) || InStock(availability[1..], bloodType)
  }

  predicate BloodTypeMatch(bank: BloodBank, bloodType: string)
  {
    bloodType == "" || InStock(bank.availability, bloodType)
  }

  predicate Matches(bank: BloodBank, params: SearchParams)
  {
    LocationMatch(bank, params.location) && BloodTypeMatch(bank, params.bloodType)
  }

  /**
   * `filteredBloodBanks`: the banks passing both dimension tests, in the order
   * of the bank list.
   */
  function FilterBloodBanks(banks: seq<BloodBank>, params: SearchParams): (r: seq<BloodBank>)
    ensures IsSubsequence(r, banks)
    ensures forall i :: 0 <= i < |r| ==>
              r[i] in banks && LocationMatch(r[i], params.location) && BloodTypeMatch(r[i], params.bloodType)
    ensures forall i :: 0 <= i < |banks| ==>
              (LocationMatch(banks[i], params.location) && BloodTypeMatch(banks[i], params.bloodType)
               ==> banks[i] in r)
    ensures forall b :: b in banks ==> multiset(r)[b] == if Matches(b, params) then multiset(banks)[b] else 0
  {
    Filter(banks, b => Matches(b, params))
  }

  /** With both inputs empty every bank is shown, in the original order. */
  lemma EmptySearchKeepsAll(banks: seq<BloodBank>)
    ensures FilterBloodBanks(banks, NoSearch) == banks
  {
    FilterKeepsAll(banks, b => Matches(b, NoSearch));
  }

  /**
   * A non-empty location matches exactly when its lower-cased text occurs in
   * the lower-cased city, address or name.
   */
  lemma LocationMatchIff(bank: BloodBank, location: string)
    requires location != ""
    ensures LocationMatch(bank, location) <==>
      IsSubstring(Lower(location), Lower(bank.city))
      || IsSubstring(Lower(location), Lower(bank.address))
      || IsSubstring(Lower(location), Lower(bank.name))
  {
  }

  /** A bank that lists a blood type only with no units left does not match that type. */
  lemma EmptyStockExcluded(bank: BloodBank, bloodType: string)
    requires bloodType != ""
    requires forall i :: 0 <= i < |bank.availability| ==>
               (bank.availability[i].bloodType == bloodType ==> bank.availability[i].units == 0)
    ensures !BloodTypeMatch(bank, bloodType)
  {
  }

  /** Setting an empty dimension to a value can only remove banks from the result. */
  lemma NarrowingShrinks(banks: seq<BloodBank>, params: SearchParams, key: SearchKey, value: string)
    requires params.Get(key) == ""
    ensures IsSubsequence(FilterBloodBanks(banks, params.With(key, value)), FilterBloodBanks(banks, params))
  {
    var narrowed := params.With(key, value);
    FilterMonotone(banks, b => Matches(b, narrowed), b => Matches(b, params));
  }

  /**
   * Two banks that both list O-, one with 5 units and one with none:
   * searching for O- shows only the first.
   */
  lemma StockedBankExample()
    ensures var central := BloodBank("BB-001", "Central Blood Bank", "123 Medical Center Dr",
                                     "Healthcare City", "", "", [StockEntry("O-", 5, Critical)]);
            var memorial := BloodBank("BB-002", "Memorial Blood Center", "456 Hospital Ave",
                                      "Healthcare City", "", "", [StockEntry("O-", 0, Low)]);
            FilterBloodBanks([central, memorial], SearchParams("", "O-")) == [central]
  {
    var central := BloodBank("BB-001", "Central Blood Bank", "123 Medical Center Dr",
                             "Healthcare City", "", "", [StockEntry("O-", 5, Critical)]);
    var memorial := BloodBank("BB-002", "Memorial Blood Center", "456 Hospital Ave",
                              "Healthcare City", "", "", [StockEntry("O-", 0, Low)]);
    var p := (b: BloodBank) => Matches(b, SearchParams("", "O-"));
    assert p(central) && !p(memorial);
    assert [central, memorial][1..] == [memorial];
    assert Filter([memorial], p) == [];
  }

  /** The page state that the search inputs and the Reset Search button update. */
  class BloodBanksPage {
    var searchParams: SearchParams
    var bloodBanks: seq<BloodBank>

    constructor (banks: seq<BloodBank>)
      ensures searchParams == NoSearch && bloodBanks == banks
    {
      searchParams := NoSearch;
      bloodBanks := banks;
    }

    /** The list the page renders. */
    function FilteredBloodBanks(): seq<BloodBank>
      reads this
    {
      FilterBloodBanks(bloodBanks, searchParams)
    }

    /** `handleSearchChange`: the input named `key` now holds `value`. */
    method HandleSearchChange(key: SearchKey, value: string)
      modifies this`searchParams
      ensures searchParams == old(searchParams).With(key, value)
    {
      searchParams := searchParams.With(key, value);
    }

    /** Reset Search: both keys become `""`, and every bank is shown again. */
    method ResetSearch()
      modifies this`searchParams
      ensures searchParams == NoSearch
      ensures FilteredBloodBanks() == bloodBanks
    {
      searchParams := NoSearch;
      EmptySearchKeepsAll(bloodBanks);
    }
  }
}
