/** The mode registry of the matrix handler: the three travel-mode names a
    request may carry, the engine travel mode and costing each one selects,
    and the divisor that turns a time budget into a search distance. */
module ModeRegistry {
  import opened Wrappers

  /** The routing engine's travel modes that the handler can request. */
  datatype TravelMode = Drive | Pedestrian | Bicycle

  /** The costing kinds the handler asks the engine's costing factory for. */
  datatype Costing = AutoCosting | PedestrianCosting | BicycleCosting

  /** Number of travel modes, hence of slots in the handler's cost-model table. */
  const ModeCount: nat := 3

  /** The only mode names a request may carry. */
  const ModeNames: set<string> := {"walking", "bike", "car"}

  /** Position of a travel mode in the engine's enumeration; the handler
      uses it as the mode's slot in its cost-model table. */
  function Index(m: TravelMode): (i: nat)
    ensures i < ModeCount
  {
    match m
    case Drive => 0
    case Pedestrian => 1
    case Bicycle => 2
  }

  /** The request name of each travel mode. */
  function Name(m: TravelMode): string
  {
    match m
    case Pedestrian => "walking"
    case Bicycle => "bike"
    case Drive => "car"
  }

  /** The costing each travel mode is built with. */
  function CostingOf(m: TravelMode): Costing
  {
    match m
    case Pedestrian => PedestrianCosting
    case Bicycle => BicycleCosting
    case Drive => AutoCosting
  }

  /** The mode table: a partial lookup that knows exactly the three mode
      names and gives back the mode whose name was asked for. */
  function ModeOf(name: string): (r: Option<TravelMode>)
    ensures r.Some? <==> name in ModeNames
    ensures r.Some? ==> Name(r.value) == name
  {
    if name == "walking" then Some(Pedestrian)
    else if name == "bike" then Some(Bicycle)
    else if name == "car" then Some(Drive)
    else None
  }

  /** `ModeOf` inverts `Name`. */
  lemma NameRoundTrip(m: TravelMode)
    ensures ModeOf(Name(m)) == Some(m)
  {
    match m
    case Pedestrian =>
    case Bicycle =>
    case Drive =>
  }

  /** The table slot of a mode name: defined exactly on the three names,
      always a valid slot, and every slot belongs to some name. */
  function ModeIndex(name: string): (r: Option<nat>)
    ensures r.Some? <==> name in ModeNames
    ensures r.Some? ==> r.value < ModeCount
    ensures r.Some? ==> exists m :: Name(m) == name && Index(m) == r.value
  {
    match ModeOf(name)
    case Some(m) => Some(Index(m))
    case None => None
  }

  /** Distinct mode names occupy distinct slots, and the three names cover
      every slot of the table. */
  lemma ModeIndexInjective(a: string, b: string)
    requires ModeIndex(a).Some? && ModeIndex(b).Some?
    ensures ModeIndex(a) == ModeIndex(b) <==> a == b
  {
  }

  /** Every slot of the table is the slot of one of the three names. */
  lemma ModeIndexCoversSlots(i: nat)
    requires i < ModeCount
    ensures exists name :: name in ModeNames && ModeIndex(name) == Some(i)
  {
    if i == 0 {
      assert ModeIndex("car") == Some(0);
    } else if i == 1 {
      assert ModeIndex("walking") == Some(1);
    } else {
      assert ModeIndex("bike") == Some(2);
    }
  }

  /** The costing of a mode name; every other name is rejected. */
  function ToCosting(name: string): (r: Option<Costing>)
    ensures r.Some? <==> name in ModeNames
  {
    if name == "walking" then Some(PedestrianCosting)
    else if name == "bike" then Some(BicycleCosting)
    else if name == "car" then Some(AutoCosting)
    else None
  }

  /** The costing chosen by name is the costing of the mode chosen by
      name, and no two modes share a costing. */
  lemma ToCostingAgreesWithMode(name: string)
    ensures ToCosting(name) == (match ModeOf(name) case Some(m) => Some(CostingOf(m)) case None => None)
    ensures forall m, m' :: CostingOf(m) == CostingOf(m') ==> m == m'
  {
  }

  /** The engine's per-mode divisors that turn a duration into a search
      distance; their values belong to the engine. */
  datatype Divisors = Divisors(pedestrian: real, bicycle: real, automobile: real)

  /** The divisor that belongs to each travel mode. */
  function DivisorFor(d: Divisors, m: TravelMode): real
  {
    match m
    case Pedestrian => d.pedestrian
    case Bicycle => d.bicycle
    case Drive => d.automobile
  }

  /** The distance threshold for a time budget. A name that is not one of
      the three modes is given the drive divisor rather than rejected. */
  function DistanceThreshold(d: Divisors, name: string, duration: real): (r: real)
    ensures r == duration * DivisorFor(d, ModeOf(name).GetOr(Drive))
  {
    if name == "walking" then duration * d.pedestrian
    else if name == "bike" then duration * d.bicycle
    else duration * d.automobile
  }

  /** Every name that is not a mode gets the same threshold as "car". */
  lemma DistanceThresholdFallback(d: Divisors, name: string, duration: real)
    ensures name !in ModeNames ==> DistanceThreshold(d, name, duration) == DistanceThreshold(d, "car", duration)
  {
  }

  /** Distinct divisors give the three modes distinct thresholds for any
      non-zero budget. */
  lemma DistanceThresholdPerMode(d: Divisors, duration: real)
    requires duration != 0.0
    requires d.pedestrian != d.bicycle && d.bicycle != d.automobile && d.pedestrian != d.automobile
    ensures DistanceThreshold(d, "walking", duration) != DistanceThreshold(d, "bike", duration)
    ensures DistanceThreshold(d, "bike", duration) != DistanceThreshold(d, "car", duration)
    ensures DistanceThreshold(d, "walking", duration) != DistanceThreshold(d, "car", duration)
  {
  }
}
