/** The static price list of the instant-estimate calculator and its display labels.
    All money is integer pence; each surface multiplier is a whole number of hundredths. */
module Catalogue {

  datatype SurfaceType = Driveway | Patio | Pathway | PoolSurround | Commercial

  datatype ServiceType = ResinBound | ResinBonded | Overlay | FullPreparation | Repair | Consultation

  datatype AddonKey = Edging | Skip | Drainage | Steps

  /** The add-on keys in the order the catalogue declares them. */
  const AddonOrder: seq<AddonKey> := [Edging, Skip, Drainage, Steps]

  /** VAT as a fraction of the (floored) subtotal. */
  const VatRate: real := 0.2

  /** The minimum-job floor applied to the subtotal. */
  const MinTotalPence: int := 25000

  /** The surface multiplier in hundredths: 1.0, 0.95, 0.9, 1.1, 0.85. */
  function MultiplierHundredths(s: SurfaceType): (h: nat)
    ensures 85 <= h <= 110
  {
    match s
    case Driveway => 100
    case Patio => 95
    case Pathway => 90
    case PoolSurround => 110
    case Commercial => 85
  }

  /** The surface multiplier as an exact rational. */
  function Multiplier(s: SurfaceType): (m: real)
    ensures 0.85 <= m <= 1.1
  {
    MultiplierHundredths(s) as real / 100.0
  }

  datatype ServiceRate = ServiceRate(basePence: nat, perSqmPence: nat)

  /** The base charge and the per-m² charge of each service. */
  function Rate(s: ServiceType): ServiceRate
  {
    match s
    case ResinBound => ServiceRate(45000, 7500)
    case ResinBonded => ServiceRate(35000, 5500)
    case Overlay => ServiceRate(25000, 4500)
    case FullPreparation => ServiceRate(55000, 8500)
    case Repair => ServiceRate(18000, 3500)
    case Consultation => ServiceRate(0, 0)
  }

  /** Every catalogue amount is whole pounds, and only the consultation has no per-m² rate. */
  lemma RatesAreWholePounds(s: ServiceType)
    ensures Rate(s).basePence % 100 == 0 && Rate(s).perSqmPence % 100 == 0
    ensures Rate(s).perSqmPence == 0 <==> s == Consultation
  {
  }

  function AddonLabel(k: AddonKey): string
  {
    match k
    case Edging => "Aluminium edging"
    case Skip => "Waste removal / skip"
    case Drainage => "Drainage channel"
    case Steps => "Steps / levels"
  }

  function AddonPence(k: AddonKey): (p: nat)
    ensures 24000 <= p <= 42000 && p % 100 == 0
  {
    match k
    case Edging => 35000
    case Skip => 24000
    case Drainage => 42000
    case Steps => 28000
  }

  /** The display name of each surface type. */
  function SurfaceTypeLabel(s: SurfaceType): string
  {
    match s
    case Driveway => "Driveway"
    case Patio => "Patio"
    case Pathway => "Pathway / walkway"
    case PoolSurround => "Pool surround"
    case Commercial => "Commercial area"
  }

  /** The display name of each service; it also heads the base and size rows. */
  function ServiceLabel(s: ServiceType): string
  {
    match s
    case ResinBound => "Resin bound surfacing"
    case ResinBonded => "Resin bonded surfacing"
    case Overlay => "Overlay existing surface"
    case FullPreparation => "Full ground preparation"
    case Repair => "Repair / patch work"
    case Consultation => "Free consultation"
  }

  /** SURFACE_TYPE_LABEL names each surface type differently. */
  lemma SurfaceTypeLabelsDistinct(a: SurfaceType, b: SurfaceType)
    ensures SurfaceTypeLabel(a) == SurfaceTypeLabel(b) <==> a == b
  {
  }

  /** SERVICE_LABEL names each service differently, so the base and size rows of different
      services never share a label. */
  lemma ServiceLabelsDistinct(a: ServiceType, b: ServiceType)
    ensures ServiceLabel(a) == ServiceLabel(b) <==> a == b
  {
  }

  /** Distinct add-ons have distinct labels, so a label identifies its add-on. */
  lemma AddonLabelsDistinct(j: AddonKey, k: AddonKey)
    ensures AddonLabel(j) == AddonLabel(k) <==> j == k
  {
  }

  /** The catalogue order lists each add-on key exactly once. */
  lemma AddonOrderIsComplete(k: AddonKey)
    ensures k in AddonOrder
    ensures multiset(AddonOrder)[k] == 1
  {
  }

  /** Which add-ons are selected: the component's Record<AddonKey, boolean>. */
  datatype AddonSelection = AddonSelection(edging: bool, skip: bool, drainage: bool, steps: bool)
  {
    predicate Selected(k: AddonKey)
    {
      match k
      case Edging => edging
      case Skip => skip
      case Drainage => drainage
      case Steps => steps
    }
  }
}
