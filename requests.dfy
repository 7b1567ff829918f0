/** The blood-requests page: a four-dimension search over the list of requests. */
module Requests {
  import opened Wrappers
  import opened JsText
  import opened Seqs

  datatype Urgency = Normal | Urgent | Critical
  {
    /** The string the urgency is stored as, which the search compares with `===`. */
    function Name(): string
    {
      match this
      case Normal => "Normal"
      case Urgent => "Urgent"
      case Critical => "Critical"
    }
  }

  datatype Status = Open | InProgress | Fulfilled | Expired
  {
    function Name(): string
    {
      match this
      case Open => "Open"
      case InProgress => "In Progress"
      case Fulfilled => "Fulfilled"
      case Expired => "Expired"
    }
  }

  datatype BloodRequest = BloodRequest(
    id: string,
    patientName: string,
    bloodType: string,
    units: int,
    hospital: string,
    location: string,
    urgency: Urgency,
    requestDate: string,
    status: Status,
    contactPhone: string,
    notes: Option<string>)

  datatype SearchKey = BloodTypeKey | LocationKey | UrgencyKey | StatusKey

  /** The page's `searchParams` state; `""` in a dimension means "no filter". */
  datatype SearchParams = SearchParams(bloodType: string, location: string, urgency: string, status: string)
  {
    function Get(key: SearchKey): string
    {
      match key
      case BloodTypeKey => bloodType
      case LocationKey => location
      case UrgencyKey => urgency
      case StatusKey => status
    }

    /** `{...searchParams, [name]: value}`: only the named key changes. */
    function With(key: SearchKey, value: string): (p: SearchParams)
      ensures p.Get(key) == value
      ensures forall k :: k != key ==> p.Get(k) == Get(k)
    {
      match key
      case BloodTypeKey => this.(bloodType := value)
      case LocationKey => this.(location := value)
      case UrgencyKey => this.(urgency := value)
      case StatusKey => this.(status := value)
    }
  }

  const NoSearch := SearchParams("", "", "", "")

  /** One dimension's test; only the location is a substring test, and only against `location`. */
  predicate DimensionMatch(request: BloodRequest, key: SearchKey, value: string)
  {
    value == "" ||
    match key
    case BloodTypeKey => request.bloodType == value
    case LocationKey => IncludesIgnoringCase(request.location, value)
    case UrgencyKey => request.urgency.Name() == value
    case StatusKey => request.status.Name() == value
  }

  predicate Matches(request: BloodRequest, params: SearchParams)
  {
    && DimensionMatch(request, BloodTypeKey, params.bloodType)
    && DimensionMatch(request, LocationKey, params.location)
    && DimensionMatch(request, UrgencyKey, params.urgency)
    && DimensionMatch(request, StatusKey, params.status)
  }

  /** `filteredRequests`: the requests passing all four tests, in list order. */
  function FilterRequests(requests: seq<BloodRequest>, params: SearchParams): (r: seq<BloodRequest>)
    ensures IsSubsequence(r, requests)
    ensures forall i :: 0 <= i < |r| ==>
              r[i] in requests && forall k :: DimensionMatch(r[i], k, params.Get(k))
    ensures forall i :: 0 <= i < |requests| ==>
              ((forall k :: DimensionMatch(requests[i], k, params.Get(k))) ==> requests[i] in r)
    ensures forall q :: q in requests ==> multiset(r)[q] == if Matches(q, params) then multiset(requests)[q] else 0
  {
    AllDimensions(requests, params);
    Filter(requests, q => Matches(q, params))
  }

  /** `Matches` is the AND of the four dimension tests, whichever way the keys are listed. */
  lemma AllDimensions(requests: seq<BloodRequest>, params: SearchParams)
    ensures forall q :: Matches(q, params) <==> forall k :: DimensionMatch(q, k, params.Get(k))
  {
    forall q
      ensures Matches(q, params) <==> forall k :: DimensionMatch(q, k, params.Get(k))
    {
      if Matches(q, params) {
        forall k ensures DimensionMatch(q, k, params.Get(k)) {
          match k
          case BloodTypeKey =>
          case LocationKey =>
          case UrgencyKey =>
          case StatusKey =>
        }
      } else {
        assert !DimensionMatch(q, BloodTypeKey, params.Get(BloodTypeKey))
            || !DimensionMatch(q, LocationKey, params.Get(LocationKey))
            || !DimensionMatch(q, UrgencyKey, params.Get(UrgencyKey))
            || !DimensionMatch(q, StatusKey, params.Get(StatusKey));
      }
    }
  }

  /** With every dimension empty, all requests are shown in their original order. */
  lemma EmptySearchKeepsAll(requests: seq<BloodRequest>)
    ensures FilterRequests(requests, NoSearch) == requests
  {
    FilterKeepsAll(requests, q => Matches(q, NoSearch));
  }

  /** An empty categorical or location value accepts every request in that dimension. */
  lemma EmptyValueMatches(request: BloodRequest, key: SearchKey)
    ensures DimensionMatch(request, key, "")
  {
  }

  /** Setting an empty dimension to a value can only remove requests from the result. */
  lemma NarrowingShrinks(requests: seq<BloodRequest>, params: SearchParams, key: SearchKey, value: string)
    requires params.Get(key) == ""
    ensures IsSubsequence(FilterRequests(requests, params.With(key, value)), FilterRequests(requests, params))
  {
    var narrowed := params.With(key, value);
    AllDimensions(requests, params);
    AllDimensions(requests, narrowed);
    forall q | q in requests && Matches(q, narrowed) ensures Matches(q, params) {
      forall k ensures DimensionMatch(q, k, params.Get(k)) {
        if k != key {
          assert params.Get(k) == narrowed.Get(k);
        }
      }
    }
    FilterMonotone(requests, q => Matches(q, narrowed), q => Matches(q, params));
  }

  /** A query starting with a letter that the text lacks in either case is not found. */
  lemma MissingLetterNotFound(hay: string, query: string)
    requires query != [] && IsLowerAscii(query[0])
    requires forall i :: 0 <= i < |hay| ==> hay[i] != query[0] && hay[i] != UpperChar(query[0])
    ensures !IncludesIgnoringCase(hay, query)
  {
  }

  /**
   * The location search does not look at the hospital name, although the
   * input's placeholder offers "hospital": a request at "Central Hospital" in
   * "Downtown" is not found by "central".
   */
  lemma HospitalIsNotSearched(request: BloodRequest)
    requires request.hospital == "Central Hospital" && request.location == "Downtown"
    ensures IncludesIgnoringCase(request.hospital, "central")
    ensures FilterRequests([request], NoSearch.With(LocationKey, "central")) == []
  {
    var query := "central";
    var hospital := Lower(request.hospital);
    assert Lower(query) == query by {
      assert forall i :: 0 <= i < |query| ==> !IsUpperAscii(query[i]);
    }
    assert hospital[..7] == query by {
      assert forall i :: 1 <= i < 7 ==> !IsUpperAscii(request.hospital[i]);
      assert hospital[0] == 'c';
    }
    assert query <= hospital;
    MissingLetterNotFound(request.location, query);
  }

  /**
   * For every search, the hospital name makes no difference: a request and
   * the same request at another hospital are both kept or both dropped.
   */
  lemma HospitalNeverSearched(request: BloodRequest, hospital: string, params: SearchParams)
    ensures Matches(request.(hospital := hospital), params) == Matches(request, params)
    ensures FilterRequests([request.(hospital := hospital)], params) == []
            <==> FilterRequests([request], params) == []
  {
  }

  /** The page state that the search inputs and the Reset Search button update. */
  class RequestsPage {
    var searchParams: SearchParams
    var bloodRequests: seq<BloodRequest>

    constructor (requests: seq<BloodRequest>)
      ensures searchParams == NoSearch && bloodRequests == requests
    {
      searchParams := NoSearch;
      bloodRequests := requests;
    }

    function FilteredRequests(): seq<BloodRequest>
      reads this
    {
      FilterRequests(bloodRequests, searchParams)
    }

    /** `handleSearchChange`: the input named `key` now holds `value`. */
    method HandleSearchChange(key: SearchKey, value: string)
      modifies this`searchParams
      ensures searchParams == old(searchParams).With(key, value)
    {
      searchParams := searchParams.With(key, value);
    }

    /** Reset Search: all four keys become `""`, and every request is shown again. */
    method ResetSearch()
      modifies this`searchParams
      ensures searchParams == NoSearch
      ensures FilteredRequests() == bloodRequests
    {
      searchParams := NoSearch;
      EmptySearchKeepsAll(bloodRequests);
    }
  }
}
