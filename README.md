# Value-for-money house scoring, in Dafny

This project models the scoring calculator of `property.py`. A `Property` holds a
real-estate listing's numeric attributes. The calculator turns them into four
sub-scores, each clamped to [0, 100] with `max(0, min(x, 100))`:

- **price**: 100 minus the price per m² as a percentage of the area average;
- **location**: the raw location input, plus half of (100 − crime rate), plus 3
  points per school-rating point;
- **property**: the area as a percentage of a 185 m² reference, less
  (100 − condition), less one point per 1000 of renovation cost;
- **external**: 5 points per percentage point of annual appreciation.

The total is the weighted sum of the four sub-scores under the module-level
table `WEIGHTS` (price 0.4, location 0.3, property 0.2, external 0.1). The sum
also carries a raw appreciation-rate term whose weight is 0.0.

Everything lives in one module, `ValueForMoney` (`property.dfy`), because the
source is one file of pure computations:

- the listing is an immutable `datatype Property`;
- the Python constructor is `NewProperty`, with `Option<real>` for the four
  optional inputs;
- each scoring method is a function of the listing: `location_score_method`
  becomes `LocationScore`;
- the weight table is the constant `WEIGHTS` of type `Weights`;
- the weighted sum is `WeightedTotal`, which takes any weight table, so that the
  lemmas can say which tables keep the total in range.

All quantities are exact `real`s.

The price score divides by `avg_price_per_m2`. The source does no check there,
and Python raises `ZeroDivisionError` on a zero average. So `PriceScore` and
`TotalScore` require a nonzero average. The source validates nothing else, and
neither does the model.

A listing priced exactly at the area average gets a price score of 0. One
priced below the average gets its discount as a percentage of the average
(`PriceScoreZeroIffAtOrAboveAverage`, `PriceScoreIsRelativeDiscount`).

## Model

| member | source | states |
|---|---|---|
| ValueForMoney.Clamp | property.py:40 | the result lies in [0, 100]; it is the input itself when the input is inside that range, 0 at or below 0, and 100 at or above 100 |
| ValueForMoney.ClampMonotone | property.py:40 | clamping preserves the order of its inputs |
| ValueForMoney.NewProperty | property.py:14-31 | the nine required inputs are stored as given; each optional input is stored when supplied and otherwise becomes 80 (condition), 0 (renovation cost), 3 (appreciation rate) or 50 (crime rate) |
| ValueForMoney.OmittedOptionalsAreDefaults | property.py:28-31 | omitting all four optional inputs gives the same listing as passing 80, 0, 3 and 50 explicitly, and hence the same four sub-scores and the same total |
| ValueForMoney.PriceScore | property.py:34-40 | needs a nonzero area average (otherwise the division fails); the price score lies in [0, 100] |
| ValueForMoney.PriceScoreIsRelativeDiscount | property.py:35-37 | the price score equals the clamped discount (average − price per m²) as a percentage of the average, which is the unused `price_diff` divided by the average |
| ValueForMoney.PriceScoreNonIncreasing | property.py:36-40 | with a positive average, raising the price per m² never raises the price score |
| ValueForMoney.PriceScoreZeroIffAtOrAboveAverage | property.py:36-40 | with a positive average, the price score is 0 if and only if the price per m² is at least the average |
| ValueForMoney.PriceScoreFullIffFree | property.py:36-40 | with a positive average, the price score is 100 if and only if the price per m² is at most 0 |
| ValueForMoney.LocationScore | property.py:43-48 | the location score lies in [0, 100] for every input |
| ValueForMoney.LocationScoreMonotone | property.py:44-48 | the location score is non-decreasing in the raw location input and in the school rating, and non-increasing in the crime rate |
| ValueForMoney.PropertyScore | property.py:51-59 | the property score lies in [0, 100] for every input |
| ValueForMoney.PropertyScoreMonotone | property.py:53-59 | the property score is non-decreasing in the area and in the condition score, and non-increasing in the renovation cost |
| ValueForMoney.ExternalScore | property.py:62-66 | the external score lies in [0, 100] for every input |
| ValueForMoney.ExternalScoreMonotone | property.py:63-66 | a higher appreciation rate never lowers the external score |
| ValueForMoney.ExternalScoreFullIff | property.py:63-66 | the external score is 100 if and only if the appreciation rate is at least 20 |
| ValueForMoney.ExternalScoreZeroIff | property.py:63-66 | the external score is 0 if and only if the appreciation rate is at most 0 |
| ValueForMoney.DefaultWeightsConvex | property.py:4-10 | the weight table has no negative weight, its price, location, property and external weights sum to 1, and its appreciation weight is 0 |
| ValueForMoney.WeightedDeviation | property.py:76-82 | under such a table, the total minus any level m is the weighted sum of each sub-score minus m, so the appreciation term drops out |
| ValueForMoney.WeightedTotalAtLeast | property.py:76-82 | under such a table, the weighted total is at least any common lower bound of the four sub-scores, whatever the appreciation rate |
| ValueForMoney.WeightedTotalAtMost | property.py:76-82 | under such a table, the weighted total is at most any common upper bound of the four sub-scores, whatever the appreciation rate |
| ValueForMoney.TotalScore | property.py:69-84 | needs a nonzero average; the total lies between the smallest and the largest of the four sub-scores, so it lies in [0, 100] although the code never clamps it |
| ValueForMoney.TotalScoreIgnoresRawAppreciation | property.py:76-82 | the total is 0.4·price + 0.3·location + 0.2·property + 0.1·external; the raw appreciation term contributes nothing |
| ValueForMoney.TotalScoreSeesAppreciationOnlyThroughExternal | property.py:69-84 | changing only the appreciation rate, with the external score unchanged (for instance, two rates both at or above 20), leaves the total unchanged |
| ValueForMoney.TotalScoreMonotone | property.py:69-84 | for a fixed positive average, the total never falls when the price per m², crime rate and renovation cost do not rise and the location input, school rating, area, condition and appreciation rate do not fall |
| ValueForMoney.ExampleListingScores | property.py:88-98 | the example listing (3300 against an average of 3500 per m², 150 m², location 80, school rating 9, optional inputs omitted) has price score 40/7, an unclamped location sum of 132 and so location score 100, property score 2260/37, external score 15, and total 23829/518 (about 46.00) |

## Left out

- Floating-point rounding: every quantity is an exact real. The example's scores are exact fractions here, so Python's printed values are rounded forms of them.
- Python's dynamic typing: integer and float inputs are both `real`. The model does not represent a non-numeric argument, or a NaN or infinite one.
- `price`, `size`, `bedrooms` and `bathrooms` are stored but no score reads them. They appear as inert fields.
- The local `price_diff` (property.py:35) is never used. `PriceScoreIsRelativeDiscount` states that the price score equals it taken relative to the average.
- `WEIGHTS` is a mutable module-level dict. The model makes it a constant. `WeightedTotalAtLeast` and `WeightedTotalAtMost` still describe any replacement table with non-negative weights that sum to 1 and a zero appreciation weight.
- The division by a zero `avg_price_per_m2` raises `ZeroDivisionError` in the source. In the model it is a precondition of `PriceScore` and `TotalScore`.
- The commented-out demo and its `print` (property.py:87-101) are I/O. Only the demo's input values are used, in `ExampleListingScores`.
