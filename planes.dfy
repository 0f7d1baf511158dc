// Aircraft types, the empty-weight table and the two kinds of plane.

module Planes {

  /** The aircraft types an operator can choose; `None` is the default value of the enumeration. */
  datatype PlaneType = None | AirbusA310 | AirbusA320 | Boeing737 | Boeing747

  /** The exceptions the modelled code can raise. */
  datatype Error =
    | KeyNotFound      // the empty-weight table has no entry for the requested type
    | InvalidArgument  // the airline refuses a plane

  /** A C# reference that may be null. */
  datatype Nullable<+T> = Null | NonNull(value: T)

  datatype Result<+T> = Success(value: T) | Failure(error: Error)

  datatype Outcome = Ok | Fail(error: Error)

  /** A C# `int`: the type of the passenger count. */
  newtype Int32 = x: int | -0x8000_0000 <= x < 0x8000_0000

  /** Kilograms added to the takeoff weight by each passenger. */
  const K: real := 62.0

  /** The static empty-weight table, in kilograms; it has no entry for `None`. */
  const EmptyWeights: map<PlaneType, real> :=
    map[AirbusA310 := 82000.0, AirbusA320 := 36750.0, Boeing737 := 26400.0, Boeing747 := 186000.0]

  /** The table has an entry for every type except `None`, with the listed weights. */
  lemma EmptyWeightsTable()
    ensures forall t :: t in EmptyWeights <==> t != None
    ensures EmptyWeights[AirbusA310] == 82000.0 && EmptyWeights[AirbusA320] == 36750.0
    ensures EmptyWeights[Boeing737] == 26400.0 && EmptyWeights[Boeing747] == 186000.0
  {
  }

  /** Indexing the table: a missing key raises instead of yielding a value. */
  function Lookup(t: PlaneType): (r: Result<real>)
    ensures r.Success? <==> t != None
    ensures r.Failure? ==> r.error == KeyNotFound
    ensures r.Success? ==> t in EmptyWeights && r.value == EmptyWeights[t] && r.value > 0.0
  {
    EmptyWeightsTable();
    if t in EmptyWeights then Success(EmptyWeights[t]) else Failure(KeyNotFound)
  }

  /** The kind-specific part of a plane: a passenger plane carries a passenger count,
      a cargo aircraft a cargo weight. The set of kinds is closed. */
  datatype Payload = Passengers(count: Int32) | Cargo(weight: real)
  {
    predicate NonNegative() {
      match this
      case Passengers(n) => n >= 0
      case Cargo(w) => w >= 0.0
    }

    /** Takeoff weight of a plane of this kind whose cached empty weight is `emptyWeight`. */
    function TakeoffWeight(emptyWeight: real): (w: real)
      ensures Passengers? ==> w - emptyWeight == K * (count as real)
      ensures Cargo? ==> w - emptyWeight == weight
      ensures NonNegative() <==> w >= emptyWeight
    {
      match this
      case Passengers(n) => K * (n as real) + emptyWeight
      case Cargo(w) => w + emptyWeight
    }
  }

  /** A plane: its type, the empty weight cached when the type was last set, its
      registration number (null until assigned) and its kind-specific payload. */
  class Plane {
    var planeType: PlaneType
    var emptyWeight: real
    var number: Nullable<string>
    var payload: Payload

    /** The cached empty weight agrees with the table whenever the type has an entry;
        otherwise it is left over from the default (0) or from an earlier type, and in
        every case it is not negative. */
    ghost predicate Valid()
      reads this
    {
      && (planeType in EmptyWeights ==> emptyWeight == EmptyWeights[planeType])
      && emptyWeight >= 0.0
    }

    /** The parameterless constructor of a passenger plane. */
    constructor EmptyPassenger()
      ensures Valid()
      ensures planeType == None && emptyWeight == 0.0 && number == Null
      ensures payload == Passengers(0)
    {
      planeType, emptyWeight, number := None, 0.0, Null;
      payload := Passengers(0);
    }

    /** The parameterless constructor of a cargo aircraft. */
    constructor EmptyCargo()
      ensures Valid()
      ensures planeType == None && emptyWeight == 0.0 && number == Null
      ensures payload == Cargo(0.0)
    {
      planeType, emptyWeight, number := None, 0.0, Null;
      payload := Cargo(0.0);
    }

    /** The `Type` setter: stores the type first, then reads the empty weight from the
        table. For a type without an entry the lookup raises after the type is stored,
        so the stale empty weight survives. */
    method SetType(t: PlaneType) returns (r: Outcome)
      modifies this
      ensures planeType == t
      ensures r.Ok? <==> t != None
      ensures r.Fail? ==> r.error == KeyNotFound && emptyWeight == old(emptyWeight)
      ensures r.Ok? ==> emptyWeight == EmptyWeights[t]
      ensures number == old(number) && payload == old(payload)
      ensures old(Valid()) ==> Valid()
    {
      planeType := t;
      var w := Lookup(planeType);
      if w.Failure? {
        return Fail(w.error);
      }
      emptyWeight := w.value;
      r := Ok;
    }

    /** The polymorphic takeoff weight, computed from the cached empty weight (never
        from the table directly), for every type including `None`. */
    function TakeoffWeight(): (w: real)
      reads this
      ensures payload.Passengers? ==> w == emptyWeight + K * (payload.count as real)
      ensures payload.Cargo? ==> w == emptyWeight + payload.weight
      ensures payload.NonNegative() ==> w >= emptyWeight
    {
      payload.TakeoffWeight(emptyWeight)
    }

    /** `new PessengerPlane(type, number, count)`. The number argument is assigned to
        itself rather than to the property, so the plane's number stays null. */
    static method NewPassenger(t: PlaneType, number: string, count: Int32) returns (r: Result<Plane>)
      ensures r.Success? <==> t != None
      ensures r.Failure? ==> r.error == KeyNotFound
      ensures r.Success? ==> fresh(r.value) && r.value.Valid()
      ensures r.Success? ==> r.value.planeType == t && r.value.emptyWeight == EmptyWeights[t]
      ensures r.Success? ==> r.value.number == Null && r.value.payload == Passengers(count)
    {
      var p := new Plane.EmptyPassenger();
      var o := p.SetType(t);
      if o.Fail? {
        return Failure(o.error);
      }
      p.payload := Passengers(count);
      r := Success(p);
    }

    /** `new CargoAircraft(type, number, weight)`, with the same self-assignment of the
        number as the passenger constructor. */
    static method NewCargo(t: PlaneType, number: string, weight: real) returns (r: Result<Plane>)
      ensures r.Success? <==> t != None
      ensures r.Failure? ==> r.error == KeyNotFound
      ensures r.Success? ==> fresh(r.value) && r.value.Valid()
      ensures r.Success? ==> r.value.planeType == t && r.value.emptyWeight == EmptyWeights[t]
      ensures r.Success? ==> r.value.number == Null && r.value.payload == Cargo(weight)
    {
      var p := new Plane.EmptyCargo();
      var o := p.SetType(t);
      if o.Fail? {
        return Failure(o.error);
      }
      p.payload := Cargo(weight);
      r := Success(p);
    }
  }

  /** For a consistent plane whose type has an entry, the takeoff weight is the kind's
      formula applied to the table's empty weight for that type; with a non-negative
      payload it is never negative. */
  lemma TakeoffWeightFollowsType(p: Plane)
    requires p.Valid()
    ensures p.planeType != None ==>
              p.planeType in EmptyWeights && p.TakeoffWeight() == p.payload.TakeoffWeight(EmptyWeights[p.planeType])
    ensures p.payload.NonNegative() ==> p.TakeoffWeight() >= 0.0
  {
  }
}
