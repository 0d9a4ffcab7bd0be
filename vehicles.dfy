/**
  `vehicle(vin)`: the first of the connection's vehicles whose unique id
  matches the VIN without regard to case, or none. A vehicle is represented
  by its unique id; the vehicle class itself is not part of this model.
 */
module Vehicles {
  import opened Values
  import opened Text

  predicate SameVin(id: string, vin: string)
  {
    Lower(id) == Lower(vin)
  }

  /** The position of the first vehicle matching `vin`. */
  function FindVehicle(ids: seq<string>, vin: string): (r: Option<nat>)
    ensures r.Some? ==> r.value < |ids| && SameVin(ids[r.value], vin)
    ensures r.Some? ==> forall j :: 0 <= j < r.value ==> !SameVin(ids[j], vin)
    ensures r.None? <==> forall j :: 0 <= j < |ids| ==> !SameVin(ids[j], vin)
    decreases |ids|
  {
    if ids == [] then None
    else if SameVin(ids[0], vin) then Some(0)
    else
      match FindVehicle(ids[1..], vin)
      case None => None
      case Some(i) => Some(i + 1)
  }

  /** Asking with the VIN in any case finds the same vehicle. */
  lemma FindVehicleIgnoresCase(ids: seq<string>, vin: string)
    ensures FindVehicle(ids, vin) == FindVehicle(ids, Lower(vin))
  {
    LowerIdempotent(vin);
    FindVehicleSameKey(ids, vin, Lower(vin));
  }

  /** Two VINs that agree once lower-cased select the same vehicle. */
  lemma {:induction false} FindVehicleSameKey(ids: seq<string>, a: string, b: string)
    requires Lower(a) == Lower(b)
    ensures FindVehicle(ids, a) == FindVehicle(ids, b)
    decreases |ids|
  {
    if ids != [] {
      FindVehicleSameKey(ids[1..], a, b);
    }
  }
}
