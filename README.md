# Airline fleet model

A Dafny model of the aircraft-fleet logic of `LR3/Program.cs`. It covers four things:

- the aircraft types and their static table of empty weights;
- the `Type` setter, which caches the empty weight on each plane;
- the takeoff weight of the two kinds of plane;
- the airline, an ordered list of planes with guarded `Add`, `TotalWeight`, `SortByWeight` and `GetPlanes`, plus the step that adopts a decoded list when a fleet is loaded.

Files:

- `planes.dfy` (module `Planes`) holds these parts:
  - `PlaneType`;
  - the empty-weight table `EmptyWeights` and its lookup `Lookup`, which fails with `KeyNotFound` for `None`;
  - the payload datatype: a passenger count or a cargo weight;
  - the class `Plane`. Its fields are the type, the cached empty weight, the nullable number and the payload. It has two parameterless constructors, the `Type` setter and the two parameterised constructors.
- `airline.dfy` (module `Airlines`) holds the class `Airline`, whose fleet is a `seq<Plane>` field that its methods reassign. It also holds the specification functions `TotalOf` (the sum of takeoff weights) and `SortedByWeight`, the `Admits` check of `Add`, and the lemmas about them. The sort (`SortByWeightOf`, built on `InsertByWeight`) is proved to produce a permutation ordered by weight.
- `scenarios.dfy` (module `Scenarios`) holds the worked examples: the two-plane fleet, the admission failures, a one-plane fleet and the stale empty weight.

The model keeps two things the code does:

- **The number is never set by a constructor.** The parameterised constructors assign their `number` argument to itself (`LR3/Program.cs:43`), so `Number` stays null. `Add` then refuses a freshly constructed plane until its number is assigned.
- **Setting `Type` to `None` raises.** The table has no `None` key. The setter stores the type *before* it looks up the table, so the plane ends up with type `None` and keeps its previous cached empty weight. `Plane.Valid()` states the invariant the code actually keeps: the cached weight matches the table whenever the type has an entry, and it is never negative.

Two consequences of this code are kept as they are:

- A plane whose type is `None` still has a takeoff weight, computed from its cached empty weight.
- After a failed `Type = None` the cached empty weight no longer matches the type (see `Scenarios.StaleEmptyWeight`), so `Plane.Valid()` constrains the weight only when the type has a table entry.

Weights are exact `real`s. The table values and `K = 62` are whole numbers.

## Model

| member | source | states |
|---|---|---|
| `Planes.EmptyWeightsTable` | LR3/Program.cs:26-33 | the table has an entry for exactly the four aircraft types, with weights 82000, 36750, 26400 and 186000; `None` has no entry |
| `Planes.Lookup` | LR3/Program.cs:52 | indexing the table succeeds exactly when the type is not `None`, gives the table's weight (which is positive), and otherwise fails with `KeyNotFound` |
| `Planes.Plane.SetType` | LR3/Program.cs:46-54 | the type is stored in every case; for a type in the table the empty weight becomes that type's table value; for `None` the call fails with `KeyNotFound` and the old empty weight remains; number and payload are untouched; the invariant `Valid` is kept |
| `Planes.Plane.EmptyPassenger` | LR3/Program.cs:65 | a parameterless passenger plane has type `None`, empty weight 0, a null number and 0 passengers |
| `Planes.Plane.EmptyCargo` | LR3/Program.cs:84 | a parameterless cargo aircraft has type `None`, empty weight 0, a null number and cargo weight 0 |
| `Planes.Plane.NewPassenger` | LR3/Program.cs:40-71 | construction fails with `KeyNotFound` exactly for `None`; otherwise the new plane has the given type, that type's table weight and the given count, and its number is still null |
| `Planes.Plane.NewCargo` | LR3/Program.cs:86-90 | as for the passenger constructor, with the given cargo weight; the number is still null |
| `Planes.Payload.TakeoffWeight` | LR3/Program.cs:76-98 | a passenger plane adds 62 kg per passenger to the empty weight, a cargo aircraft adds its cargo weight; the result is at least the empty weight exactly when the count or cargo weight is not negative |
| `Planes.Plane.TakeoffWeight` | LR3/Program.cs:58-98 | the polymorphic getter applies the payload's formula to the plane's cached empty weight, for every type including `None`: 62 kg per passenger or the cargo weight on top of it, and no less than it when the payload is not negative |
| `Planes.TakeoffWeightFollowsType` | LR3/Program.cs:49-53 | for a consistent plane with a type, the takeoff weight is its kind's formula applied to the table weight of that type; with a non-negative payload it is not negative |
| `Airlines.Airline.constructor` | LR3/Program.cs:103 | a new airline has an empty fleet |
| `Airlines.Airline.Add` | LR3/Program.cs:119-127 | succeeds exactly when the plane is non-null, its type is not `None` and its number is non-null and non-empty; on refusal it fails with an invalid-argument error and leaves the fleet unchanged; on success the plane is appended at the end and the earlier planes stay in order; a fleet of admitted planes stays one |
| `Airlines.Airline.TotalWeight` | LR3/Program.cs:106-117 | returns the sum of the takeoff weights over the fleet (0 for an empty fleet), without changing anything |
| `Airlines.TotalOfAppend` | LR3/Program.cs:126 | appending a plane, as `Add` does, raises the total by exactly that plane's takeoff weight |
| `Airlines.TotalOfRemove` | LR3/Program.cs:110-115 | taking one plane out of a fleet lowers the total by exactly that plane's takeoff weight |
| `Airlines.TotalOfConcat` | LR3/Program.cs:110-115 | the total of two fleets put end to end is the sum of their totals |
| `Airlines.TotalOfPermutation` | LR3/Program.cs:146-149 | two fleets with the same planes, in any order, have the same total, so sorting keeps `TotalWeight` |
| `Airlines.TotalOfNonNegative` | LR3/Program.cs:106-117 | with every plane consistent and every payload non-negative, the total is not negative |
| `Airlines.ReorderKeeps` | LR3/Program.cs:146-149 | any reordering of a fleet, such as the sort, keeps its total weight and keeps a fleet of admitted planes admitted |
| `Airlines.PermutationKeepsAdmitted` | LR3/Program.cs:121 | reordering a fleet whose planes all pass `Add`'s checks leaves one whose planes all pass them |
| `Airlines.InsertKeepsSorted` | LR3/Program.cs:136-139 | inserting a plane between lighter-or-equal and heavier-or-equal planes keeps a fleet sorted by takeoff weight |
| `Airlines.InsertByWeight` | LR3/Program.cs:136-139 | inserting a plane into a fleet sorted by the comparer's key gives a sorted fleet holding the old planes plus the new one |
| `Airlines.SortByWeightOf` | LR3/Program.cs:146-149 | the result is a permutation of the input in which takeoff weights do not decrease |
| `Airlines.Airline.SortByWeight` | LR3/Program.cs:146-149 | afterwards the fleet holds the same planes as before (as a multiset), ordered by non-decreasing takeoff weight, with the total unchanged and admission kept; the order of ties is not fixed |
| `Airlines.Airline.GetPlanes` | LR3/Program.cs:129-132 | returns the fleet's own planes, the same objects in the current order |
| `Airlines.Airline.FromDecoded` | LR3/Program.cs:162-195 | loading adopts the decoded list as it is, in order and without `Add`'s checks; a null list gives an empty fleet |
| `Scenarios.TwoPlanesSorted` | LR3/Program.cs:146-149 | two planes of different weight have exactly one sorted order, the lighter first |
| `Scenarios.TwoPlaneFleet` | LR3/Program.cs:106-149 | a Boeing 747 freighter with 50000 kg and a Boeing 737 with 120 passengers total 269840 kg, and sorting puts the passenger plane first |
| `Scenarios.RefusedPlanes` | LR3/Program.cs:119-124 | construction with `None` fails with `KeyNotFound`; a default plane, a constructed plane whose number was never assigned and a plane with an empty number are all refused, and the fleet stays empty |
| `Scenarios.NumberedA320` | LR3/Program.cs:40-71 | a passenger Airbus A320 with 150 passengers, given its number after construction, weighs 62 * 150 + 36750 = 46050 kg |
| `Scenarios.TotalOfOne` | LR3/Program.cs:106-117 | the total of a one-plane fleet is that plane's takeoff weight |
| `Scenarios.SinglePassengerFleet` | LR3/Program.cs:106-127 | a numbered Airbus A320 with 150 passengers is admitted, and the fleet of that one plane weighs 46050 kg |
| `Scenarios.StaleEmptyWeight` | LR3/Program.cs:49-53 | setting `None` on an Airbus A310 raises `KeyNotFound` but leaves the type `None` and the empty weight at 82000, from which the takeoff weight is still computed |

## Left out

- The XML and JSON codecs and their file I/O (`ToXml`, `FromXml`, `ToJson`, `FromJson`, `LR3/Program.cs:151-195`). They delegate to `XmlSerializer`, Newtonsoft.Json and `File.*`, whose behaviour is not part of this model. Only the step that adopts a decoded list is modelled (`Airline.FromDecoded`). Decoding itself, its failures and the partial overwrite left by `File.OpenWrite` are not modelled.
- `Airline.FromDecoded`: a decoded list is taken to hold no null elements. A null entry inside a decoded list is not representable in the model.
- The console menu in `Main` (`LR3/Program.cs:203-245`). It only prints messages.
- IEEE double arithmetic. Weights, sums and comparisons are exact reals. Rounding, NaN and infinities of the cargo weight are not modelled.
- The `[XmlInclude]` attributes and the `ByWeightComparer` class as such. Only the ordering it induces is kept: by takeoff weight (`SortedByWeight`).
- `Airlines.Airline.SortByWeight`: `List.Sort` is an unstable introspective sort, and its algorithm is not modelled. The model sorts by insertion. Its contract fixes only what `List.Sort` guarantees: the same planes, ordered by weight, with tie order unspecified.
- `Airlines.Airline.GetPlanes`: in C# the caller receives the live `List` object itself. The model returns the current sequence of plane references. The planes are the same objects, but a later `Add` or sort is not visible through a sequence returned earlier.
- The plane kind is fixed by the C# class. In the model it is the payload's constructor. No operation of the model changes the kind, but the `payload` field could be assigned a different kind.
- The `Count`, `CargoWeight` and `Number` auto-properties are plain fields assigned directly, with no accessor methods. Nothing is lost for `Count`: it stays a 32-bit `Int32`, and since C# computes `K * Count` in `double` (`LR3/Program.cs:62`, `LR3/Program.cs:78`), the model's exact product cannot overflow where the source's would not.
- `Plane.planeType` and `Plane.emptyWeight` are `protected` in C#, so only the `Type` setter writes them after construction and every C# plane keeps `Plane.Valid()`. In the model they are public fields that a client could assign directly, breaking `Valid()`. This is why `TakeoffWeightFollowsType` and `TotalOfNonNegative` require `Valid()`, and why the constructors and `SetType` ensure it.

