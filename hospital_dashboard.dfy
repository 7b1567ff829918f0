/**
 * The hospital dashboard: a read-only blood inventory with its low-stock
 * alerts, and a request list that the new-request form prepends to.
 */
module HospitalDashboard {
  import opened Wrappers
  import opened Seqs
  import opened JsNumber
  import opened BloodStock

  datatype RequestStatus = Pending | Processing | Fulfilled | Cancelled

  /**
   * A request as listed. `units` holds what `parseInt` gave, NaN included;
   * `urgency` holds the selected option's value.
   */
  datatype BloodRequest = BloodRequest(
    id: string,
    bloodType: string,
    units: IntOrNaN,
    urgency: string,
    status: RequestStatus,
    requestedAt: string,
    hospital: Option<string>)

  /** The entry form's `newRequest` state. */
  datatype NewRequest = NewRequest(bloodType: string, units: IntOrNaN, urgency: string)

  const EmptyNewRequest := NewRequest("", Int(1), "Normal")

  /** The `name`s of the three form inputs. */
  datatype RequestKey = BloodTypeKey | UnitsKey | UrgencyKey

  /**
   * The id of a new request: `REQ-` and the random draw, a number in
   * 0..999, written with `toString()` and left-padded with zeros to 3 digits.
   */
  function RequestId(draw: nat): string
    requires draw < 1000
  {
    "REQ-" + PadStart(NatToString(draw), 3, '0')
  }

  /** An id is `REQ-` followed by exactly three digits, which spell the draw. */
  lemma RequestIdShape(draw: nat)
    requires draw < 1000
    ensures var id := RequestId(draw);
            |id| == 7 && id[..4] == "REQ-" && AllDigits(id[4..]) && DigitsValue(id[4..]) == draw
  {
    var digits := NatToString(draw);
    ShortNumbers(draw, 3);
    var padded := PadStart(digits, 3, '0');
    assert padded == Repeat('0', 3 - |digits|) + digits;
    LeadingZeros(3 - |digits|, digits);
    NatToStringValue(draw);
    var id := RequestId(draw);
    assert id[4..] == padded;
  }

  /** Different draws give different ids ... */
  lemma RequestIdInjective(a: nat, b: nat)
    requires a < 1000 && b < 1000
    requires RequestId(a) == RequestId(b)
    ensures a == b
  {
    RequestIdShape(a);
    RequestIdShape(b);
  }

  /** ... but nothing keeps a new id apart from the ids already listed: draw 1 repeats `REQ-001`. */
  lemma RequestIdMayRepeat()
    ensures RequestId(1) == "REQ-001"
  {
    assert NatToString(1) == "1";
    assert Repeat('0', 2) == "00";
  }

  /** The record `handleRequestSubmit` builds from the form. */
  function NewRequestRecord(form: NewRequest, draw: nat, now: string): (r: BloodRequest)
    requires draw < 1000
    ensures r.status == Pending && r.hospital == None
    ensures r.bloodType == form.bloodType && r.units == form.units && r.urgency == form.urgency
    ensures r.requestedAt == now
    ensures |r.id| == 7 && r.id[..4] == "REQ-" && AllDigits(r.id[4..]) && DigitsValue(r.id[4..]) == draw
  {
    RequestIdShape(draw);
    BloodRequest(RequestId(draw), form.bloodType, form.units, form.urgency, Pending, now, None)
  }

  predicate IsLowStock(entry: StockEntry)
  {
    entry.status == Low || entry.status == Critical
  }

  /** The "Low Stock Alerts" list: the Low and Critical entries, in inventory order. */
  function LowStockAlerts(stock: seq<StockEntry>): (r: seq<StockEntry>)
    ensures IsSubsequence(r, stock)
    ensures forall i :: 0 <= i < |r| ==> r[i] in stock && (r[i].status == Low || r[i].status == Critical)
    ensures forall i :: 0 <= i < |stock| ==>
              (stock[i].status == Low || stock[i].status == Critical ==> stock[i] in r)
    ensures forall e :: e in stock ==> multiset(r)[e] == if IsLowStock(e) then multiset(stock)[e] else 0
  {
    Filter(stock, IsLowStock)
  }

  /** "All blood types are adequately stocked" is shown exactly when no alert is. */
  predicate ShowsAdequatelyStocked(stock: seq<StockEntry>)
  {
    |LowStockAlerts(stock)| == 0
  }

  lemma AdequatelyStockedIff(stock: seq<StockEntry>)
    ensures ShowsAdequatelyStocked(stock) <==>
              forall i :: 0 <= i < |stock| ==> stock[i].status == High || stock[i].status == Medium
  {
    if !ShowsAdequatelyStocked(stock) {
      var r := LowStockAlerts(stock);
      assert r[0] in stock;
    }
  }

  class Dashboard {
    var bloodStock: seq<StockEntry>
    var requests: seq<BloodRequest>
    var newRequest: NewRequest

    constructor (stock: seq<StockEntry>, initialRequests: seq<BloodRequest>)
      ensures bloodStock == stock && requests == initialRequests && newRequest == EmptyNewRequest
    {
      bloodStock := stock;
      requests := initialRequests;
      newRequest := EmptyNewRequest;
    }

    /** `handleRequestChange`: only the named key changes; `units` is stored as `parseInt(value)`. */
    method HandleRequestChange(key: RequestKey, value: string)
      modifies this`newRequest
      ensures newRequest == match key
                            case BloodTypeKey => old(newRequest).(bloodType := value)
                            case UnitsKey => old(newRequest).(units := ParseInt(value))
                            case UrgencyKey => old(newRequest).(urgency := value)
    {
      match key
      case BloodTypeKey => newRequest := newRequest.(bloodType := value);
      case UnitsKey => newRequest := newRequest.(units := ParseInt(value));
      case UrgencyKey => newRequest := newRequest.(urgency := value);
    }

    /**
     * `handleRequestSubmit`, given the random draw and the current time: the new
     * record goes in front of the list, which keeps its old entries in order; the
     * form is reset. The inventory has no writer and stays as it is.
     */
    method HandleRequestSubmit(draw: nat, now: string)
      requires draw < 1000
      modifies this`requests, this`newRequest
      ensures requests == [NewRequestRecord(old(newRequest), draw, now)] + old(requests)
      ensures |requests| == |old(requests)| + 1 && requests[1..] == old(requests)
      ensures newRequest == EmptyNewRequest
      ensures bloodStock == old(bloodStock)
    {
      var record := NewRequestRecord(newRequest, draw, now);
      requests := [record] + requests;
      newRequest := EmptyNewRequest;
    }
  }

  /** Typing "5" into the units input stores the number 5; clearing it stores NaN. */
  method ExampleUnits(d: Dashboard)
    modifies d
  {
    ParseIntOfNat(5, "");
    assert NatToString(5) == "5";
    assert NatToString(5) + "" == "5";
    d.HandleRequestChange(UnitsKey, "5");
    assert d.newRequest.units == Int(5);
    ParseIntNaN("");
    d.HandleRequestChange(UnitsKey, "");
    assert d.newRequest.units == NaN;
  }
}
