/**
  Value-for-money scoring of one real-estate listing.

  A `Property` holds a listing's numeric attributes. Four sub-scores (price,
  location, property and external factors) are each a short formula clamped
  to the closed interval [0, 100]; the total is their weighted sum under the
  fixed weight table `WEIGHTS`. Quantities are exact reals: the model does
  not round as floating point does.
 */
module ValueForMoney {

  datatype Option<T> = None | Some(value: T)

  /** The weight of each factor in the total score. */
  datatype Weights = Weights(
    price: real,
    location: real,
    property: real,
    external: real,
    appreciation: real)

  /** The module-level weight table the total score reads. */
  const WEIGHTS: Weights := Weights(0.4, 0.3, 0.2, 0.1, 0.0)

  /** Values the constructor stores for omitted optional inputs. */
  const DEFAULT_CONDITION_SCORE: real := 80.0
  const DEFAULT_RENOVATION_COST: real := 0.0
  const DEFAULT_APPRECIATION_RATE: real := 3.0
  const DEFAULT_CRIME_RATE: real := 50.0

  /** Reference home size (about 2000 sqft) against which the area is scored. */
  const REFERENCE_AREA_M2: real := 185.0
  /** Renovation cost that takes a full 100 points off the property score. */
  const RENOVATION_SCALE: real := 100000.0

  /**
    A listing as the constructor leaves it. `price`, `size`, `bedrooms` and
    `bathrooms` are stored but never read by any score.
   */
  datatype Property = Property(
    price: real,
    areaM2: real,
    pricePerM2: real,
    avgPricePerM2: real,
    locationScore: real,
    schoolRating: real,
    size: real,
    bedrooms: real,
    bathrooms: real,
    conditionScore: real,
    renovationCost: real,
    appreciationRate: real,
    crimeRate: real)

  function Min(x: real, y: real): (r: real) { if x <= y then x else y }

  function Max(x: real, y: real): (r: real) { if x >= y then x else y }

  /** `max(0, min(x, 100))`: the value of `x` cut to the score range. */
  function Clamp(x: real): (r: real)
    ensures 0.0 <= r <= 100.0
    ensures 0.0 <= x <= 100.0 ==> r == x
    ensures x <= 0.0 ==> r == 0.0
    ensures 100.0 <= x ==> r == 100.0
  {
    Max(0.0, Min(x, 100.0))
  }

  /** The value given, or the default when the argument was omitted. */
  function OrDefault(arg: Option<real>, default: real): (r: real)
  {
    match arg
    case Some(v) => v
    case None => default
  }

  /**
    The constructor: required inputs are stored as given; an omitted
    optional input is replaced by its default.
   */
  function NewProperty(
    price: real, areaM2: real, pricePerM2: real, avgPricePerM2: real,
    locationScore: real, schoolRating: real, size: real, bedrooms: real, bathrooms: real,
    conditionScore: Option<real>, renovationCost: Option<real>,
    appreciationRate: Option<real>, crimeRate: Option<real>): (p: Property)
    ensures p.price == price && p.areaM2 == areaM2 && p.pricePerM2 == pricePerM2
    ensures p.avgPricePerM2 == avgPricePerM2 && p.locationScore == locationScore
    ensures p.schoolRating == schoolRating && p.size == size
    ensures p.bedrooms == bedrooms && p.bathrooms == bathrooms
    ensures p.conditionScore == if conditionScore.Some? then conditionScore.value else DEFAULT_CONDITION_SCORE
    ensures p.renovationCost == if renovationCost.Some? then renovationCost.value else DEFAULT_RENOVATION_COST
    ensures p.appreciationRate == if appreciationRate.Some? then appreciationRate.value else DEFAULT_APPRECIATION_RATE
    ensures p.crimeRate == if crimeRate.Some? then crimeRate.value else DEFAULT_CRIME_RATE
  {
    Property(price, areaM2, pricePerM2, avgPricePerM2, locationScore, schoolRating,
             size, bedrooms, bathrooms,
             OrDefault(conditionScore, DEFAULT_CONDITION_SCORE),
             OrDefault(renovationCost, DEFAULT_RENOVATION_COST),
             OrDefault(appreciationRate, DEFAULT_APPRECIATION_RATE),
             OrDefault(crimeRate, DEFAULT_CRIME_RATE))
  }

  /**
    Price score: 100 minus the listing's price per m² as a percentage of the
    area average. The division fails on a zero average.
   */
  function PriceScore(p: Property): (r: real)
    requires p.avgPricePerM2 != 0.0
    ensures 0.0 <= r <= 100.0
  {
    var priceRatio := p.pricePerM2 / p.avgPricePerM2;
    Clamp(100.0 - priceRatio * 100.0)
  }

  /**
    Location score: the raw location input, plus half the distance of the
    crime rate below 100, plus 30 points per full 10-point school rating.
   */
  function LocationScore(p: Property): (r: real)
    ensures 0.0 <= r <= 100.0
  {
    var crimePenalty := (100.0 - p.crimeRate) * 0.5;
    var schoolBonus := (p.schoolRating / 10.0) * 100.0 * 0.3;
    Clamp(p.locationScore + crimePenalty + schoolBonus)
  }

  /**
    Property score: the area as a percentage of the reference size, less the
    condition's shortfall from 100, less one point per 1000 of renovation cost.
   */
  function PropertyScore(p: Property): (r: real)
    ensures 0.0 <= r <= 100.0
  {
    var sizeScore := (p.areaM2 / REFERENCE_AREA_M2) * 100.0;
    var conditionPenalty := 100.0 - p.conditionScore;
    var renovationPenalty := (p.renovationCost / RENOVATION_SCALE) * 100.0;
    Clamp(sizeScore - conditionPenalty - renovationPenalty)
  }

  /** External score: five points per percentage point of annual appreciation. */
  function ExternalScore(p: Property): (r: real)
    ensures 0.0 <= r <= 100.0
  {
    Clamp(p.appreciationRate * 5.0)
  }

  /** Sum of the weights of the four scored factors. */
  function ActiveWeightSum(w: Weights): (r: real)
  {
    w.price + w.location + w.property + w.external
  }

  /**
    A weight table under which the total stays a score: no negative weight,
    the four active weights sum to 1, and the raw appreciation rate, which is
    not itself a score, has no weight.
   */
  predicate ConvexWeights(w: Weights)
  {
    && 0.0 <= w.price && 0.0 <= w.location && 0.0 <= w.property && 0.0 <= w.external
    && ActiveWeightSum(w) == 1.0
    && w.appreciation == 0.0
  }

  /**
    The weighted total under an arbitrary weight table: each sub-score times
    its factor's weight, plus the raw appreciation rate times the
    appreciation weight.
   */
  function WeightedTotal(w: Weights, price: real, location: real, property: real,
                         external: real, appreciationRate: real): (r: real)
  {
    price * w.price + location * w.location + property * w.property
      + external * w.external + appreciationRate * w.appreciation
  }

  /** Total value-for-money score: the four sub-scores weighted by `WEIGHTS`. */
  function TotalScore(p: Property): (r: real)
    requires p.avgPricePerM2 != 0.0
    ensures 0.0 <= r <= 100.0
    ensures Min(Min(PriceScore(p), LocationScore(p)), Min(PropertyScore(p), ExternalScore(p))) <= r
    ensures r <= Max(Max(PriceScore(p), LocationScore(p)), Max(PropertyScore(p), ExternalScore(p)))
  {
    var ps, ls, prs, es := PriceScore(p), LocationScore(p), PropertyScore(p), ExternalScore(p);
    DefaultWeightsConvex();
    WeightedTotalAtLeast(WEIGHTS, ps, ls, prs, es, p.appreciationRate, Min(Min(ps, ls), Min(prs, es)));
    WeightedTotalAtMost(WEIGHTS, ps, ls, prs, es, p.appreciationRate, Max(Max(ps, ls), Max(prs, es)));
    WeightedTotal(WEIGHTS, ps, ls, prs, es, p.appreciationRate)
  }

  // ---------------------------------------------------------------------
  // Weights and the weighted total

  /** The fixed weight table is convex: 0.4 + 0.3 + 0.2 + 0.1 and a zero appreciation weight. */
  lemma DefaultWeightsConvex()
    ensures ConvexWeights(WEIGHTS)
  {
  }

  /** A product of two non-negative reals is non-negative. */
  lemma MulNonNegative(x: real, y: real)
    requires 0.0 <= x && 0.0 <= y
    ensures 0.0 <= x * y
  {
  }

  /**
    Under a convex weight table the distance of the weighted total from any
    level `m` is the weighted sum of the sub-scores' distances from `m`.
   */
  lemma WeightedDeviation(w: Weights, price: real, location: real, property: real,
                          external: real, appreciationRate: real, m: real)
    requires ConvexWeights(w)
    ensures WeightedTotal(w, price, location, property, external, appreciationRate) - m
            == w.price * (price - m) + w.location * (location - m)
               + w.property * (property - m) + w.external * (external - m)
  {
    assert appreciationRate * w.appreciation == 0.0;
    assert m == m * ActiveWeightSum(w);
  }

  /** Under a convex weight table the weighted total is at least any common lower bound `lo`. */
  lemma WeightedTotalAtLeast(w: Weights, price: real, location: real, property: real,
                             external: real, appreciationRate: real, lo: real)
    requires ConvexWeights(w)
    requires lo <= price && lo <= location && lo <= property && lo <= external
    ensures lo <= WeightedTotal(w, price, location, property, external, appreciationRate)
  {
    WeightedDeviation(w, price, location, property, external, appreciationRate, lo);
    MulNonNegative(w.price, price - lo);
    MulNonNegative(w.location, location - lo);
    MulNonNegative(w.property, property - lo);
    MulNonNegative(w.external, external - lo);
  }

  /** Under a convex weight table the weighted total is at most any common upper bound `hi`. */
  lemma WeightedTotalAtMost(w: Weights, price: real, location: real, property: real,
                            external: real, appreciationRate: real, hi: real)
    requires ConvexWeights(w)
    requires price <= hi && location <= hi && property <= hi && external <= hi
    ensures WeightedTotal(w, price, location, property, external, appreciationRate) <= hi
  {
    WeightedDeviation(w, price, location, property, external, appreciationRate, hi);
    MulNonNegative(w.price, hi - price);
    MulNonNegative(w.location, hi - location);
    MulNonNegative(w.property, hi - property);
    MulNonNegative(w.external, hi - external);
  }

  // ---------------------------------------------------------------------
  // Clamping

  /** Clamping preserves order. */
  lemma ClampMonotone(x: real, y: real)
    requires x <= y
    ensures Clamp(x) <= Clamp(y)
  {
  }

  // ---------------------------------------------------------------------
  // Constructor defaults

  /**
    Omitting the four optional inputs gives the same listing, and so the same
    scores, as passing 80, 0, 3 and 50 for them.
   */
  lemma OmittedOptionalsAreDefaults(
    price: real, areaM2: real, pricePerM2: real, avgPricePerM2: real,
    locationScore: real, schoolRating: real, size: real, bedrooms: real, bathrooms: real)
    ensures var omitted := NewProperty(price, areaM2, pricePerM2, avgPricePerM2, locationScore,
                                       schoolRating, size, bedrooms, bathrooms, None, None, None, None);
            var explicit := NewProperty(price, areaM2, pricePerM2, avgPricePerM2, locationScore,
                                        schoolRating, size, bedrooms, bathrooms,
                                        Some(80.0), Some(0.0), Some(3.0), Some(50.0));
            && omitted == explicit
            && LocationScore(omitted) == LocationScore(explicit)
            && PropertyScore(omitted) == PropertyScore(explicit)
            && ExternalScore(omitted) == ExternalScore(explicit)
            && (avgPricePerM2 != 0.0 ==>
                  PriceScore(omitted) == PriceScore(explicit) && TotalScore(omitted) == TotalScore(explicit))
  {
  }

  // ---------------------------------------------------------------------
  // Price score

  /**
    The price score is the listing's discount on the area average,
    `avg - price_per_m2`, as a percentage of the average, clamped.
   */
  lemma PriceScoreIsRelativeDiscount(p: Property)
    requires p.avgPricePerM2 != 0.0
    ensures PriceScore(p) == Clamp((p.avgPricePerM2 - p.pricePerM2) / p.avgPricePerM2 * 100.0)
  {
  }

  /** With a positive average, a higher price per m² never raises the price score. */
  lemma PriceScoreNonIncreasing(p: Property, cheaper: real, dearer: real)
    requires p.avgPricePerM2 > 0.0
    requires cheaper <= dearer
    ensures PriceScore(p.(pricePerM2 := dearer)) <= PriceScore(p.(pricePerM2 := cheaper))
  {
  }

  /** With a positive average, the price score is 0 exactly when the listing costs at least the average. */
  lemma PriceScoreZeroIffAtOrAboveAverage(p: Property)
    requires p.avgPricePerM2 > 0.0
    ensures PriceScore(p) == 0.0 <==> p.pricePerM2 >= p.avgPricePerM2
  {
  }

  /** With a positive average, the price score is 100 exactly when the price per m² is not positive. */
  lemma PriceScoreFullIffFree(p: Property)
    requires p.avgPricePerM2 > 0.0
    ensures PriceScore(p) == 100.0 <==> p.pricePerM2 <= 0.0
  {
  }

  // ---------------------------------------------------------------------
  // Location score

  /**
    The location score never falls when the raw location input and the
    school rating do not fall and the crime rate does not rise.
   */
  lemma LocationScoreMonotone(p: Property, q: Property)
    requires p.locationScore <= q.locationScore
    requires p.schoolRating <= q.schoolRating
    requires q.crimeRate <= p.crimeRate
    ensures LocationScore(p) <= LocationScore(q)
  {
  }

  // ---------------------------------------------------------------------
  // Property score

  /**
    The property score never falls when the area and the condition do not
    fall and the renovation cost does not rise.
   */
  lemma PropertyScoreMonotone(p: Property, q: Property)
    requires p.areaM2 <= q.areaM2
    requires p.conditionScore <= q.conditionScore
    requires q.renovationCost <= p.renovationCost
    ensures PropertyScore(p) <= PropertyScore(q)
  {
  }

  // ---------------------------------------------------------------------
  // External score

  /** A higher appreciation rate never lowers the external score. */
  lemma ExternalScoreMonotone(p: Property, q: Property)
    requires p.appreciationRate <= q.appreciationRate
    ensures ExternalScore(p) <= ExternalScore(q)
  {
  }

  /** The external score is 100 exactly when the appreciation rate is at least 20. */
  lemma ExternalScoreFullIff(p: Property)
    ensures ExternalScore(p) == 100.0 <==> p.appreciationRate >= 20.0
  {
  }

  /** The external score is 0 exactly when the appreciation rate is not positive. */
  lemma ExternalScoreZeroIff(p: Property)
    ensures ExternalScore(p) == 0.0 <==> p.appreciationRate <= 0.0
  {
  }

  // ---------------------------------------------------------------------
  // Total score

  /** The raw appreciation-rate term of the total has weight 0, so it adds nothing. */
  lemma TotalScoreIgnoresRawAppreciation(p: Property)
    requires p.avgPricePerM2 != 0.0
    ensures TotalScore(p) == 0.4 * PriceScore(p) + 0.3 * LocationScore(p)
                             + 0.2 * PropertyScore(p) + 0.1 * ExternalScore(p)
  {
  }

  /**
    Two listings that differ only in the appreciation rate, and whose
    external scores agree, have the same total: the rate reaches the total
    only through the clamped external score.
   */
  lemma TotalScoreSeesAppreciationOnlyThroughExternal(p: Property, rate: real)
    requires p.avgPricePerM2 != 0.0
    requires ExternalScore(p.(appreciationRate := rate)) == ExternalScore(p)
    ensures TotalScore(p.(appreciationRate := rate)) == TotalScore(p)
  {
    var q := p.(appreciationRate := rate);
    TotalScoreIgnoresRawAppreciation(p);
    TotalScoreIgnoresRawAppreciation(q);
    assert PriceScore(q) == PriceScore(p);
    assert LocationScore(q) == LocationScore(p);
    assert PropertyScore(q) == PropertyScore(p);
  }

  /**
    The total never falls when every input moves in the direction its
    sub-score rewards, for the same positive area average.
   */
  lemma TotalScoreMonotone(p: Property, q: Property)
    requires 0.0 < p.avgPricePerM2 && q.avgPricePerM2 == p.avgPricePerM2
    requires q.pricePerM2 <= p.pricePerM2
    requires p.locationScore <= q.locationScore && p.schoolRating <= q.schoolRating
    requires q.crimeRate <= p.crimeRate
    requires p.areaM2 <= q.areaM2 && p.conditionScore <= q.conditionScore
    requires q.renovationCost <= p.renovationCost
    requires p.appreciationRate <= q.appreciationRate
    ensures TotalScore(p) <= TotalScore(q)
  {
    PriceScoreNonIncreasing(p, q.pricePerM2, p.pricePerM2);
    assert p.(pricePerM2 := p.pricePerM2) == p;
    assert PriceScore(q) == PriceScore(p.(pricePerM2 := q.pricePerM2));
    LocationScoreMonotone(p, q);
    PropertyScoreMonotone(p, q);
    ExternalScoreMonotone(p, q);
    TotalScoreIgnoresRawAppreciation(p);
    TotalScoreIgnoresRawAppreciation(q);
  }

  // ---------------------------------------------------------------------
  // The worked example listing

  /**
    500000 for 150 m² at 3300 per m² against an average of 3500, location 80,
    school rating 9, every optional input omitted.
   */
  lemma ExampleListingScores()
    ensures var p := NewProperty(500000.0, 150.0, 3300.0, 3500.0, 80.0, 9.0, 150.0, 4.0, 3.0,
                                 None, None, None, None);
            && PriceScore(p) == 40.0 / 7.0
            && p.locationScore + (100.0 - p.crimeRate) * 0.5 + p.schoolRating / 10.0 * 100.0 * 0.3 == 132.0
            && LocationScore(p) == 100.0
            && PropertyScore(p) == 2260.0 / 37.0
            && ExternalScore(p) == 15.0
            && TotalScore(p) == 23829.0 / 518.0
  {
  }
}
