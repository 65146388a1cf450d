/** The costing configurator: the per-request costing options built from a
    fixed default template, and the handler's table holding one cost model
    per travel mode. */
module CostingConfig {
  import opened Wrappers
  import opened ModeRegistry

  /** Number of costing slots in the engine's directions options (one per
      costing kind the engine knows). */
  const CostingKinds: nat := 12

  /** Position of a costing kind among the engine's costing slots. */
  function Slot(c: Costing): (i: nat)
    ensures i < CostingKinds
  {
    match c
    case AutoCosting => 0
    case BicycleCosting => 2
    case PedestrianCosting => 7
  }

  /** The options of one costing slot; only the walking speed is ever set
      by the handler, and it is unset in the template. */
  datatype CostingOptions = CostingOptions(walkingSpeed: Option<real>)

  /** Directions options: one costing slot per costing kind. */
  type DirectionsOptions = seq<CostingOptions>

  /** The default template: one default-constructed slot per costing kind. */
  function DefaultOptions(): (o: DirectionsOptions)
    ensures |o| == CostingKinds
    ensures forall i :: 0 <= i < |o| ==> o[i].walkingSpeed.None?
  {
    seq(CostingKinds, i => CostingOptions(None))
  }

  /** Conversion factor from metres per second to kilometres per hour. */
  const KmhPerMps: real := 3.6

  /** Sets the walking speed of one costing slot, keeping its other options. */
  function SetWalkingSpeed(o: DirectionsOptions, c: Costing, speed: real): DirectionsOptions
    requires |o| == CostingKinds
  {
    o[Slot(c) := o[Slot(c)].(walkingSpeed := Some(speed))]
  }

  /** The options for one request: a copy of the template in which the
      pedestrian and bicycle slots both carry the requested speed converted
      to km/h, and every other slot, the auto slot included, is the
      template's. */
  function MakeCostingOption(mode: string, speed: real): (o: DirectionsOptions)
    ensures |o| == |DefaultOptions()|
    ensures o[Slot(PedestrianCosting)].walkingSpeed == Some(speed * KmhPerMps)
    ensures o[Slot(BicycleCosting)].walkingSpeed == Some(speed * KmhPerMps)
    ensures o[Slot(AutoCosting)] == DefaultOptions()[Slot(AutoCosting)]
    ensures forall i :: 0 <= i < |o| && i != Slot(PedestrianCosting) && i != Slot(BicycleCosting) ==> o[i] == DefaultOptions()[i]
  {
    var converted := speed * KmhPerMps;
    SetWalkingSpeed(SetWalkingSpeed(DefaultOptions(), PedestrianCosting, converted), BicycleCosting, converted)
  }

  /** The options do not depend on the mode they are built for. */
  lemma MakeCostingOptionIgnoresMode(a: string, b: string, speed: real)
    ensures MakeCostingOption(a, speed) == MakeCostingOption(b, speed)
  {
  }

  /** What the engine's costing factory was asked to build: a costing kind
      and the options to build it from. The cost model it returns is the
      engine's own and is identified here with this request. */
  datatype CostModel = CostModel(costing: Costing, options: DirectionsOptions)

  /** The table the handler starts with: each mode's slot holds its costing
      built from the default template. */
  function InitialModeCosting(): (t: seq<CostModel>)
    ensures |t| == ModeCount
    ensures forall m :: t[Index(m)] == CostModel(CostingOf(m), DefaultOptions())
  {
    [CostModel(AutoCosting, DefaultOptions()),
     CostModel(PedestrianCosting, DefaultOptions()),
     CostModel(BicycleCosting, DefaultOptions())]
  }

  /** Replaces the cost model of one mode; every other mode keeps the cost
      model it had. */
  function ReplaceSlot(t: seq<CostModel>, m: TravelMode, cm: CostModel): (r: seq<CostModel>)
    requires |t| == ModeCount
    ensures |r| == ModeCount
    ensures r[Index(m)] == cm
    ensures forall m' :: m' != m ==> r[Index(m')] == t[Index(m')]
  {
    t[Index(m) := cm]
  }

  /** Replacing a slot with the value it already holds changes nothing. */
  lemma ReplaceSlotIdempotent(t: seq<CostModel>, m: TravelMode, cm: CostModel)
    requires |t| == ModeCount
    ensures ReplaceSlot(ReplaceSlot(t, m, cm), m, cm) == ReplaceSlot(t, m, cm)
  {
  }
}
