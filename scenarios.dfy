// Concrete fleets: a two-plane fleet, the refused planes, a one-plane fleet and a
// stale empty weight, stated as methods whose postconditions fix the figures and
// outcomes they produce.

module Scenarios {
  import opened Planes
  import opened Airlines

  /** Two planes of different weights have exactly one order sorted by weight. */
  lemma TwoPlanesSorted(v: seq<Plane>, light: Plane, heavy: Plane)
    requires light.TakeoffWeight() < heavy.TakeoffWeight()
    requires multiset(v) == multiset{heavy, light} && SortedByWeight(v)
    ensures v == [light, heavy]
  {
  }

  lemma TotalOfPair(a: Plane, b: Plane)
    ensures TotalOf([a, b]) == a.TakeoffWeight() + b.TakeoffWeight()
  {
    assert [a][..0] == [];
    assert TotalOf([a]) == a.TakeoffWeight();
    assert [a, b][..1] == [a];
  }

  /** Sorting a fleet of a heavier and a lighter plane swaps them. */
  method SortTwo(airline: Airline, light: Plane, heavy: Plane)
    requires airline.planes == [heavy, light]
    requires light.TakeoffWeight() < heavy.TakeoffWeight()
    modifies airline
    ensures airline.planes == [light, heavy]
  {
    airline.SortByWeight();
    assert multiset(airline.planes) == multiset{heavy, light};
    TwoPlanesSorted(airline.planes, light, heavy);
  }

  /** The two planes of `TwoPlaneFleet`: a Boeing 747 freighter `C1` with 50000 kg of
      cargo and a Boeing 737 `P1` with 120 passengers, constructed and then given
      their numbers. */
  method NumberedPlanes() returns (cargo: Plane, passenger: Plane)
    ensures fresh(cargo) && fresh(passenger) && cargo != passenger
    ensures cargo.planeType == Boeing747 && passenger.planeType == Boeing737
    ensures cargo.number == NonNull("C1") && cargo.TakeoffWeight() == 236000.0
    ensures passenger.number == NonNull("P1") && passenger.TakeoffWeight() == 33840.0
  {
    var rc := Plane.NewCargo(Boeing747, "C1", 50000.0);
    cargo := rc.value;
    cargo.number := NonNull("C1");
    var rp := Plane.NewPassenger(Boeing737, "P1", 120);
    passenger := rp.value;
    passenger.number := NonNull("P1");
  }

  /** A Boeing 747 freighter with 50000 kg of cargo and a Boeing 737 with 120
      passengers, each given its number after construction: the total is
      236000 + 33840 and sorting puts the passenger plane first. */
  method TwoPlaneFleet() returns (total: real, first: Nullable<string>, second: Nullable<string>)
    ensures total == 269840.0
    ensures first == NonNull("P1") && second == NonNull("C1")
  {
    var cargo, passenger := NumberedPlanes();
    var airline := new Airline();
    var o := airline.Add(cargo);
    assert airline.planes == [cargo];
    o := airline.Add(passenger);
    assert airline.planes == [cargo] + [passenger] == [cargo, passenger];
    total := airline.TotalWeight();
    TotalOfPair(cargo, passenger);

    SortTwo(airline, passenger, cargo);
    var view := airline.GetPlanes();
    first, second := view[0].number, view[1].number;
  }

  /** The admission checks and the table lookup on their error paths: a type without a
      table entry makes construction fail; a default plane, a constructed plane whose
      number was never assigned and a plane with an empty number are all refused, and
      the fleet stays empty. */
  method RefusedPlanes() returns (noType: Result<Plane>, blank: Outcome, unset: Outcome, unnamed: Outcome, size: nat)
    ensures noType == Failure(KeyNotFound)
    ensures blank == Fail(InvalidArgument) && unset == Fail(InvalidArgument) && unnamed == Fail(InvalidArgument)
    ensures size == 0
  {
    noType := Plane.NewPassenger(None, "X0", 10);
    var d := new Plane.EmptyPassenger();
    var rp := Plane.NewPassenger(AirbusA320, "X1", 150);
    var p := rp.value;

    var airline := new Airline();
    blank := airline.Add(d);
    unset := airline.Add(p);
    p.number := NonNull("");
    unnamed := airline.Add(p);
    size := |airline.GetPlanes()|;
  }

  /** An Airbus A320 `X1` with 150 passengers, constructed and then given its number. */
  method NumberedA320() returns (p: Plane)
    ensures fresh(p) && p.planeType == AirbusA320 && p.number == NonNull("X1")
    ensures p.TakeoffWeight() == 46050.0
  {
    var rp := Plane.NewPassenger(AirbusA320, "X1", 150);
    p := rp.value;
    p.number := NonNull("X1");
  }

  lemma TotalOfOne(p: Plane)
    ensures TotalOf([p]) == p.TakeoffWeight()
  {
    assert [p][..0] == [];
  }

  /** A numbered Airbus A320 with 150 passengers is admitted, and the fleet weighs
      62 * 150 + 36750. */
  method SinglePassengerFleet() returns (size: nat, total: real)
    ensures size == 1 && total == 46050.0
  {
    var p := NumberedA320();
    var airline := new Airline();
    var o := airline.Add(p);
    assert airline.planes == [p];
    size := |airline.GetPlanes()|;
    total := airline.TotalWeight();
    TotalOfOne(p);
  }

  /** Setting the type to `None` on an Airbus A310 raises, yet the type has already
      changed and the cached empty weight of 82000 stays behind, so the plane's
      takeoff weight is still computed from it. */
  method StaleEmptyWeight() returns (r: Outcome, t: PlaneType, weight: real)
    ensures r == Fail(KeyNotFound) && t == None
    ensures weight == 82000.0 + 62.0 * 5.0
  {
    var rp := Plane.NewPassenger(AirbusA310, "A1", 5);
    var p := rp.value;
    r := p.SetType(None);
    t := p.planeType;
    weight := p.TakeoffWeight();
  }
}
