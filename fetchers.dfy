/**
  What the `get*` data fetchers make of the response `get` returned: the
  payload test, the `status` fallback and the `{'error': 'unknown'}` marker
  they share, the position report's "car is moving" case, the match on the
  VIN in the customer profile, and the flattening of the stored vehicle data.
  Any exception inside a fetcher also ends in the error marker, so every
  failure below is just that marker.
 */
module Fetchers {
  import opened Values
  import opened Http
  import opened Requests

  /** The fetchers that use the vehicle-API token. */
  datatype Fetcher =
    | OperationList | CarportData | VehicleStatus | TripStatistics
    | Position | Timers | Climater | Charger | PreHeater

  /** `{'error': 'unknown'}`. */
  function ErrorUnknown(): Json
  {
    JObj(map["error" := JStr("unknown")])
  }

  /** The path each fetcher asks `get` for. */
  function PathOf(f: Fetcher): string
  {
    match f
    case OperationList => "/api/rolesrights/operationlist/v3/vehicles/$vin"
    case CarportData => "fs-car/promoter/portfolio/v1/skoda/CZ/vehicle/$vin/carportdata"
    case VehicleStatus => "fs-car/bs/vsr/v1/skoda/CZ/vehicles/$vin/status"
    case TripStatistics => "fs-car/bs/tripstatistics/v1/skoda/CZ/vehicles/$vin/tripdata/shortTerm?newest"
    case Position => "fs-car/bs/cf/v1/skoda/CZ/vehicles/$vin/position"
    case Timers => "fs-car/bs/departuretimer/v1/skoda/CZ/vehicles/$vin/timer"
    case Climater => "fs-car/bs/climatisation/v1/skoda/CZ/vehicles/$vin/climater"
    case Charger => "fs-car/bs/batterycharge/v1/skoda/CZ/vehicles/$vin/charger"
    case PreHeater => "fs-car/bs/rs/v1/skoda/CZ/vehicles/$vin/status"
  }

  /** The response key holding each simple fetcher's payload. */
  function PayloadKey(f: Fetcher): string
  {
    match f
    case OperationList => "operationList"
    case CarportData => "carportData"
    case VehicleStatus => "StoredVehicleDataResponse"
    case TripStatistics => "tripData"
    case Position => "findCarResponse"
    case Timers => "timer"
    case Climater => "climater"
    case Charger => "charger"
    case PreHeater => "statusResponse"
  }

  /** The default of the payload lookup: `False` for the operation list, `{}` elsewhere. */
  function PayloadDefault(f: Fetcher): Json
  {
    if f == OperationList then JBool(false) else JObj(map[])
  }

  /** The result of a simple fetcher whose payload is present and truthy. */
  function Wrap(f: Fetcher, payload: Json): Json
  {
    match f
    case OperationList => payload
    case CarportData => JObj(map["carportData" := payload])
    case TripStatistics => JObj(map["tripstatistics" := payload])
    case Timers => JObj(map["timers" := payload])
    case Climater => JObj(map["climater" := payload])
    case Charger => JObj(map["charger" := payload])
    case PreHeater => JObj(map["heating" := payload])
    case VehicleStatus => JObj(map["StoredVehicleDataResponse" := payload])
    case Position => JObj(map["findCarResponse" := payload, "isMoving" := JBool(false)])
  }

  /** The branch every fetcher reaches when the payload test fails: a truthy
      `status` hands the response back, anything else is the error marker. */
  function StatusOrUnknown(resp: Json): (data: Json)
    ensures data == resp || data == ErrorUnknown()
    ensures data == resp <==> (resp.JObj? && "status" in resp.fields && Truthy(resp.fields["status"])) || resp == ErrorUnknown()
  {
    match GetOr(resp, "status", JObj(map[]))
    case Raised(_) => ErrorUnknown()
    case Ok(s) => if Truthy(s) then resp else ErrorUnknown()
  }

  /** `{'isMoving': True, 'rate_limit_remaining': 15}`. */
  function Moving(): Json
  {
    JObj(map["isMoving" := JBool(true), "rate_limit_remaining" := JNum(15)])
  }

  /** What a fetcher returns for the response `get` gave it. */
  function Classify(f: Fetcher, resp: Json): Json
  {
    if f == VehicleStatus then StatusReport(resp)
    else
      match GetOr(resp, PayloadKey(f), PayloadDefault(f))
      case Raised(_) => ErrorUnknown()
      case Ok(v) =>
        if Truthy(v) then Wrap(f, v)
        else if f == Position && StatusOrUnknown(resp) == resp && GetOr(resp, "status", JNum(0)) == Ok(JNum(204)) then Moving()
        else StatusOrUnknown(resp)
  }

  /** Every fetcher answers a response that is not a dictionary with the error marker. */
  lemma NonDictionaryUnknown(f: Fetcher, resp: Json)
    requires !resp.JObj?
    ensures Classify(f, resp) == ErrorUnknown()
  {
  }

  /** Apart from the stored-vehicle-data fetcher, a fetcher whose payload is
      present and truthy returns it under its own key (the operation list as it is). */
  lemma PayloadWrapped(f: Fetcher, resp: Json)
    requires f != VehicleStatus
    requires resp.JObj? && PayloadKey(f) in resp.fields && Truthy(resp.fields[PayloadKey(f)])
    ensures Classify(f, resp) == Wrap(f, resp.fields[PayloadKey(f)])
  {
  }

  /** The error status `get` reports for a rejected request reaches the caller
      of every fetcher except the stored-vehicle-data one. */
  lemma ErrorStatusReported(f: Fetcher, x: Exchange)
    requires f != VehicleStatus
    requires x.Answered? && x.response.status >= 400
    ensures GetResult(x).Ok?
    ensures Classify(f, GetResult(x).value) == StatusOnly(x.response.status)
  {
    var resp := StatusOnly(x.response.status);
    assert PayloadKey(f) !in resp.fields;
  }

  /** A response whose `status` is 204 and which carries no position means the car is moving. */
  lemma PositionWhileMoving(resp: Json)
    requires resp.JObj? && "status" in resp.fields && resp.fields["status"] == JNum(204)
    requires "findCarResponse" !in resp.fields
    ensures Classify(Position, resp) == Moving()
  {
  }

  /** An actual HTTP 204 to the position GET never reaches that branch:
      `_request` reports it as `status_code`, and `get` adds `status` only for
      an error status, so the position fetcher ends with the error marker. */
  lemma NoContentPositionUnknown(x: Exchange)
    requires x.Answered? && x.response.status == 204
    ensures GetResult(x) == Ok(ResponseValue(x.response))
    ensures Classify(Position, GetResult(x).value) == ErrorUnknown()
  {
  }

  // ---------------------------------------------------------------------
  // Stored vehicle data

  /** The guard of the stored-vehicle-data fetcher: the chain of lookups down to
      the first field of the first data block, and that field's truthiness. A
      missing level becomes `{}`, and `{}[0]` raises. */
  function StatusProbe(resp: Json): (r: Result<bool>)
    ensures r.Ok? ==> resp.JObj? && "StoredVehicleDataResponse" in resp.fields
  {
    match GetOr(resp, "StoredVehicleDataResponse", JObj(map[]))
    case Raised(e) => Raised(e)
    case Ok(report) =>
      match GetOr(report, "vehicleData", JObj(map[]))
      case Raised(e) => Raised(e)
      case Ok(vehicleData) =>
        match GetOr(vehicleData, "data", JObj(map[]))
        case Raised(e) => Raised(e)
        case Ok(blocks) =>
          match First(blocks)
          case Raised(e) => Raised(e)
          case Ok(block) =>
            match GetOr(block, "field", JObj(map[]))
            case Raised(e) => Raised(e)
            case Ok(fields) =>
              match First(fields)
              case Raised(e) => Raised(e)
              case Ok(field) => Ok(Truthy(field))
  }

  /** The stored-vehicle-data fetcher. */
  function StatusReport(resp: Json): Json
  {
    match StatusProbe(resp)
    case Raised(_) => ErrorUnknown()
    case Ok(false) => StatusOrUnknown(resp)
    case Ok(true) =>
      match Parsed(resp.fields["StoredVehicleDataResponse"])
      case Raised(_) => ErrorUnknown()
      case Ok(table) =>
        JObj(map["StoredVehicleDataResponse" := resp.fields["StoredVehicleDataResponse"],
                 "StoredVehicleDataResponseParsed" := JObj(table)])
  }

  /** The stored-vehicle-data fetcher never passes an HTTP error on: for a
      `{'status': s}` response the guard indexes an empty dictionary first and
      raises, so the result is the error marker, not the response. */
  lemma StatusReportHidesErrorStatus(x: Exchange)
    requires x.Answered? && x.response.status >= 400
    ensures Classify(VehicleStatus, GetResult(x).value) == ErrorUnknown()
  {
  }

  /** A response with a truthy `status` but no stored data ends as the error marker
      as well: the `status` branch of this fetcher is never taken without stored data. */
  lemma StatusBranchNeedsStoredData(resp: Json)
    requires !resp.JObj? || "StoredVehicleDataResponse" !in resp.fields
    ensures StatusReport(resp) == ErrorUnknown()
  {
  }

  /** Python iteration over a value whose elements are then indexed by a string
      key: a list yields its items, an empty dictionary or string yields nothing,
      and anything else yields elements that cannot be indexed that way (or is
      not iterable at all). */
  function Elements(j: Json): (r: Result<seq<Json>>)
    ensures j.JArr? ==> r == Ok(j.items)
    ensures r.Ok? && !j.JArr? ==> r.value == []
    ensures r.Ok? <==> j.JArr? || j == JObj(map[]) || j == JStr("")
  {
    match j
    case JArr(items) => Ok(items)
    case JObj(m) => if m == map[] then Ok([]) else Raised(TypeError)
    case JStr(s) => if s == "" then Ok([]) else Raised(TypeError)
    case _ => Raised(TypeError)
  }

  /** `[s['field'] for s in blocks]`, then every element of each field list in order. */
  function Entries(blocks: seq<Json>): (r: Result<seq<Json>>)
    decreases |blocks|
  {
    if blocks == [] then Ok([])
    else
      match Index(blocks[0], "field")
      case Raised(e) => Raised(e)
      case Ok(fields) =>
        match Elements(fields)
        case Raised(e) => Raised(e)
        case Ok(first) =>
          match Entries(blocks[1..])
          case Raised(e) => Raised(e)
          case Ok(rest) => Ok(first + rest)
  }

  /** `StoredVehicleDataResponseParsed`, built from the report's data blocks. */
  function Parsed(report: Json): Result<map<string, Json>>
  {
    match Index(report, "vehicleData")
    case Raised(e) => Raised(e)
    case Ok(vehicleData) =>
      match Index(vehicleData, "data")
      case Raised(e) => Raised(e)
      case Ok(data) =>
        match Elements(data)
        case Raised(e) => Raised(e)
        case Ok(blocks) =>
          match Entries(blocks)
          case Raised(e) => Raised(e)
          case Ok(entries) => Flatten(entries)
  }

  /** The value one entry contributes: the entry itself when it has a `value`, else `''`. */
  function EntryValue(e: Json): Json
    requires e.JObj?
  {
    if "value" in e.fields then e else JStr("")
  }

  /** An entry the flattening can take: a dictionary with a string `id`. */
  predicate WellFormed(e: Json)
  {
    e.JObj? && "id" in e.fields && e.fields["id"].JStr?
  }

  function IdOf(e: Json): string
    requires WellFormed(e)
  {
    e.fields["id"].s
  }

  /** `dict([(e['id'], e if 'value' in e else '') for e in entries])`: later
      entries with the same id overwrite earlier ones. Tables have string keys,
      so an id that is not a string raises here, where Python raises only for
      an unhashable one. */
  function Flatten(entries: seq<Json>): Result<map<string, Json>>
    decreases |entries|
  {
    if entries == [] then Ok(map[])
    else
      match Flatten(entries[..|entries| - 1])
      case Raised(e) => Raised(e)
      case Ok(table) =>
        var e := entries[|entries| - 1];
        if !e.JObj? then Raised(TypeError)
        else if "id" !in e.fields then Raised(LookupError)
        else if !e.fields["id"].JStr? then Raised(TypeError)
        else Ok(table[IdOf(e) := EntryValue(e)])
  }

  /** The flattening succeeds exactly when every entry is a dictionary with a string id. */
  lemma {:induction false} FlattenDefined(entries: seq<Json>)
    ensures Flatten(entries).Ok? <==> forall i :: 0 <= i < |entries| ==> WellFormed(entries[i])
    decreases |entries|
  {
    if entries != [] {
      var front := entries[..|entries| - 1];
      FlattenDefined(front);
      assert forall i :: 0 <= i < |front| ==> front[i] == entries[i];
    }
  }

  /** Every entry's id is a key of the table, and every key is some entry's id. */
  lemma {:induction false} FlattenKeys(entries: seq<Json>)
    requires Flatten(entries).Ok?
    ensures var table := Flatten(entries).value;
      && (forall i :: 0 <= i < |entries| ==> WellFormed(entries[i]) && IdOf(entries[i]) in table)
      && (forall id :: id in table ==> exists i :: 0 <= i < |entries| && WellFormed(entries[i]) && IdOf(entries[i]) == id)
    decreases |entries|
  {
    if entries != [] {
      var n := |entries| - 1;
      var front := entries[..n];
      FlattenKeys(front);
      assert forall i :: 0 <= i < |front| ==> front[i] == entries[i];
      var table := Flatten(entries).value;
      forall id | id in table
        ensures exists i :: 0 <= i < |entries| && WellFormed(entries[i]) && IdOf(entries[i]) == id
      {
        if id != IdOf(entries[n]) {
          var i :| 0 <= i < |front| && WellFormed(front[i]) && IdOf(front[i]) == id;
          assert entries[i] == front[i];
        }
      }
    }
  }

  /** An id holds the value of its last entry: a later entry with the same id
      overwrites an earlier one. */
  lemma {:induction false} FlattenLastWins(entries: seq<Json>, i: nat)
    requires forall j :: 0 <= j < |entries| ==> WellFormed(entries[j])
    requires i < |entries|
    requires forall j :: i < j < |entries| ==> IdOf(entries[j]) != IdOf(entries[i])
    ensures Flatten(entries).Ok? && IdOf(entries[i]) in Flatten(entries).value
    ensures Flatten(entries).value[IdOf(entries[i])] == EntryValue(entries[i])
    decreases |entries|
  {
    FlattenDefined(entries);
    var n := |entries| - 1;
    var front := entries[..n];
    if i < n {
      assert forall j :: i < j < |front| ==> front[j] == entries[j];
      FlattenLastWins(front, i);
      assert front[i] == entries[i];
    }
  }

  // ---------------------------------------------------------------------
  // Customer profile

  const VinKey := "vehicleIdentificationNumber"

  /** `next(item for item in cars if item['vehicleIdentificationNumber'] == vin)`
      over a list: the index of the first car with that VIN; an item without the
      key raises on the way, and running off the end raises StopIteration. */
  function FindCar(cars: seq<Json>, vin: string): (r: Result<nat>)
    ensures r.Ok? ==> r.value < |cars| && Index(cars[r.value], VinKey) == Ok(JStr(vin))
    ensures r.Ok? ==> forall j :: 0 <= j < r.value ==> Index(cars[j], VinKey).Ok? && Index(cars[j], VinKey) != Ok(JStr(vin))
    ensures r.Raised? && (forall j :: 0 <= j < |cars| ==> Index(cars[j], VinKey).Ok?) ==>
              forall j :: 0 <= j < |cars| ==> Index(cars[j], VinKey) != Ok(JStr(vin))
    ensures ((exists j :: 0 <= j < |cars| && Index(cars[j], VinKey) == Ok(JStr(vin))) &&
             (forall j :: 0 <= j < |cars| ==> Index(cars[j], VinKey).Ok?)) ==> r.Ok?
    decreases |cars|
  {
    if cars == [] then Raised(LookupError)
    else
      match Index(cars[0], VinKey)
      case Raised(e) => Raised(e)
      case Ok(v) =>
        if v == JStr(vin) then Ok(0)
        else
          match FindCar(cars[1..], vin)
          case Raised(e) => Raised(e)
          case Ok(i) => Ok(i + 1)
  }

  /** The customer-profile fetcher, given the response and the VIN asked for. */
  function RealCarReport(resp: Json, vin: string): Json
  {
    match GetOr(resp, "realCars", JObj(map[]))
    case Raised(_) => ErrorUnknown()
    case Ok(cars) =>
      if !Truthy(cars) then StatusOrUnknown(resp)
      else
        match Elements(cars)
        case Raised(_) => ErrorUnknown()
        case Ok(items) =>
          match FindCar(items, vin)
          case Raised(_) => ErrorUnknown()
          case Ok(i) => JObj(map["carData" := items[i]])
  }

  /** The customer profile reports the first car carrying the VIN asked for,
      provided every car before it carries a VIN at all. */
  lemma RealCarFound(resp: Json, vin: string, k: nat)
    requires resp.JObj? && "realCars" in resp.fields && resp.fields["realCars"].JArr?
    requires var cars := resp.fields["realCars"].items;
      && k < |cars| && Index(cars[k], VinKey) == Ok(JStr(vin))
      && forall j :: 0 <= j < k ==> Index(cars[j], VinKey).Ok? && Index(cars[j], VinKey) != Ok(JStr(vin))
    ensures RealCarReport(resp, vin) == JObj(map["carData" := resp.fields["realCars"].items[k]])
  {
    var cars := resp.fields["realCars"].items;
    var r := FindCar(cars, vin);
    if r.Raised? {
      FindCarStopsAt(cars, vin, k);
    }
    assert r.Ok?;
    FindCarFirst(cars, vin, r.value, k);
  }

  /** Searching stops no later than the first matching car when every earlier car has a VIN. */
  lemma {:induction false} FindCarStopsAt(cars: seq<Json>, vin: string, k: nat)
    requires k < |cars| && Index(cars[k], VinKey) == Ok(JStr(vin))
    requires forall j :: 0 <= j < k ==> Index(cars[j], VinKey).Ok?
    ensures FindCar(cars, vin).Ok?
    decreases k
  {
    if k > 0 && Index(cars[0], VinKey) != Ok(JStr(vin)) {
      FindCarStopsAt(cars[1..], vin, k - 1);
    }
  }

  /** Two first matches are the same match. */
  lemma FindCarFirst(cars: seq<Json>, vin: string, i: nat, k: nat)
    requires i < |cars| && k < |cars|
    requires Index(cars[i], VinKey) == Ok(JStr(vin)) && Index(cars[k], VinKey) == Ok(JStr(vin))
    requires forall j :: 0 <= j < i ==> Index(cars[j], VinKey) != Ok(JStr(vin))
    requires forall j :: 0 <= j < k ==> Index(cars[j], VinKey) != Ok(JStr(vin))
    ensures i == k
  {
  }
}
