# Portfolio allocation and retirement planning, modelled in Dafny

This project models the calculation core of a personal-finance dashboard.
It models two source files, and proves properties of each.

- **The allocation aggregator** (`src/utils/portfolioCalculations.ts`)
  - totals a list of held assets;
  - groups the assets by asset type, by risk profile or by pot;
  - reports each group's value, its percentage share of the total, a display label and a colour;
  - stamps every asset with its own percentage share;
  - builds the portfolio record.
- **The retirement simulator** (`src/utils/retirementCalculations.ts`)
  - takes a set of planning assumptions;
  - simulates one row per year, from the current age to age 90 or 25 years past retirement, whichever is later;
  - a readiness evaluator then turns the finished timeline into a verdict.

The record types of `src/types/portfolio.ts` and `src/types/retirement.ts` are datatypes in `portfolio_types.dfy` and `retirement_types.dfy`.

## How the model is built

- **Grouping.** The source groups by filling a string-keyed dictionary in one pass (a `reduce`), then listing its entries in insertion order.
  - `GroupAssets` is that pass as a `while` loop over a `map`, with the insertion order kept alongside.
  - Its contract makes the result equal to `Entries`.
  - `Entries` is a closed form built from `Keys` (the distinct keys, in order of first occurrence) and `Members` (the assets under one key, in input order).
  - The three views call the same loop with a different key function.
  - `Object.entries` enumerates non-integer string keys in insertion order, and every key here is a name such as `"stock"` or `"very-cautious"`. So the order of first occurrence is the source's order.
- **Timeline.** The simulator is a `while` loop over the source's four running figures: net worth, income, monthly expenses and the monthly holiday budget.
  - Its contract makes the result equal to `Timeline(a, TimelineLength(a))`.
  - `Timeline` appends one `YearRow` per year. A `YearRow` is the year in closed form, opened on the previous year's net worth.
  - Per-year growth is written as repeated multiplication (`Grown`). `GrownIsPow` proves it equal to the power form.
  - The loop body is split into two helper methods. `SimulateYear` computes the row; `GrowFigures` is the growth step.
- **Money.** Money and rates are `real` and ages are `int`. The source's floating-point numbers are therefore modelled as exact rationals.

Two behaviours of the source are reproduced as written, and stated as lemmas:

- **Investment returns are counted twice.** The net cash flow already contains the year's investment return, and the net-worth update adds the return again. `ReturnsCountedTwice` states this.
- **The inflation rate is never read.** Neither is the plan's risk profile. `TimelineIgnoresInflationAndRisk` states this.

A consequence of the clamp at 0: on any simulated timeline the readiness shortfall is always 0, and so is the recommended savings rate whenever it is defined (`ReadinessOfTimeline`).

## Model

| member | source | states |
|---|---|---|
| PortfolioCalculations.PortfolioValue | src/utils/portfolioCalculations.ts:3-5 | the total of no assets is 0; the total of non-negative values is non-negative |
| PortfolioCalculations.PortfolioValueIsSumOfValues | src/utils/portfolioCalculations.ts:3-5 | the left fold from 0 equals the plain sum of the asset values |
| PortfolioCalculations.PortfolioValueAppend | src/utils/portfolioCalculations.ts:3-5 | the total of two concatenated lists is the sum of their totals |
| PortfolioCalculations.SharesSum | src/utils/portfolioCalculations.ts:29 | over a positive total, the percentages sum to 100 times the sum of the parts divided by the total |
| PortfolioCalculations.SharesOfWhole | src/utils/portfolioCalculations.ts:29 | parts that make up a positive total have percentages summing to exactly 100 |
| PortfolioCalculations.SumRealsBound | src/utils/portfolioCalculations.ts:3-5 | each non-negative part is between 0 and the sum |
| PortfolioCalculations.SumRealsNonNegative | src/utils/portfolioCalculations.ts:3-5 | a sum of non-negative parts is non-negative |
| PortfolioCalculations.Percentage | src/utils/portfolioCalculations.ts:29 | the guarded share `value / total * 100`, 0 when the total is not positive; no contract of its own, `PercentageScale` states its meaning |
| PortfolioCalculations.PercentageScale | src/utils/portfolioCalculations.ts:29 | a percentage is 0 over a total that is not positive; over a positive total it times the total is 100 times the value; a part between 0 and the total has a percentage in [0, 100] |
| PortfolioCalculations.SharesBounded | src/utils/portfolioCalculations.ts:29 | parts between 0 and the total have percentages between 0 and 100 |
| PortfolioCalculations.Filing | src/utils/portfolioCalculations.ts:10-17 | the dictionary after the one-pass fill; no contract of its own, `FilingStep`, `FilingDomain` and `FilingBuckets` state what it holds |
| PortfolioCalculations.GroupAssets | src/utils/portfolioCalculations.ts:10-17 | the one-pass dictionary fill, listed in insertion order, equals `Entries`: one group per distinct key in first-seen order, holding that key's summed value, count and members |
| PortfolioCalculations.FilingStep | src/utils/portfolioCalculations.ts:11-15 | one step of the fill: the key is already in the dictionary exactly when it was seen before; a new key is appended to the key order; the key's bucket (empty if new) gains the asset's value, one count and the asset, and no other bucket changes |
| PortfolioCalculations.FilingDomain | src/utils/portfolioCalculations.ts:10-17 | the dictionary's keys are exactly the keys seen |
| PortfolioCalculations.FilingBuckets | src/utils/portfolioCalculations.ts:10-17 | each bucket holds its key's summed value, count and members |
| PortfolioCalculations.FilingListsEntries | src/utils/portfolioCalculations.ts:26 | listing the dictionary in insertion order gives `Entries` |
| PortfolioCalculations.GroupsForAt | src/utils/portfolioCalculations.ts:26 | group i of a key list has the i-th key and its bucket |
| PortfolioCalculations.EntriesAt | src/utils/portfolioCalculations.ts:26 | the entries are one group per distinct key, in order, each with its own bucket |
| PortfolioCalculations.MembersIffKey | src/utils/portfolioCalculations.ts:11-13 | a key is listed if and only if some asset carries it, if and only if its member list is non-empty |
| PortfolioCalculations.KeysDistinct | src/utils/portfolioCalculations.ts:11-13 | no key is listed twice |
| PortfolioCalculations.KeysOfPrefix | src/utils/portfolioCalculations.ts:10-17 | the keys of a prefix of the input are a prefix of the keys |
| PortfolioCalculations.KeysInFirstSeenOrder | src/utils/portfolioCalculations.ts:26 | a key listed earlier occurs in the input before any occurrence of a key listed later |
| PortfolioCalculations.KeyOfSomeAsset | src/utils/portfolioCalculations.ts:11-13 | every listed key is the key of some input asset |
| PortfolioCalculations.MembersCarryKey | src/utils/portfolioCalculations.ts:75-82 | the members of a key are input assets carrying that key, and form a sub-multiset of the input |
| PortfolioCalculations.MembersOfEmpty | src/utils/portfolioCalculations.ts:10-17 | no assets give no members under any keys |
| PortfolioCalculations.MembersOfSnoc | src/utils/portfolioCalculations.ts:75-82 | adding one asset adds it to the members under distinct keys exactly when its key is among them |
| PortfolioCalculations.MembersOfCover | src/utils/portfolioCalculations.ts:75-82 | under distinct keys that cover every asset, the members together are the input as a multiset |
| PortfolioCalculations.FlattenGroupsFor | src/utils/portfolioCalculations.ts:75-82 | the members of consecutive groups, one after another, are the members under their keys |
| PortfolioCalculations.GroupValuesForSnoc | src/utils/portfolioCalculations.ts:14 | adding one asset raises the summed group values by its value exactly when its key is among the keys |
| PortfolioCalculations.BucketSnoc | src/utils/portfolioCalculations.ts:14-15 | adding one asset adds its value, one count and itself to its own key's bucket and changes no other |
| PortfolioCalculations.GroupsForEmpty | src/utils/portfolioCalculations.ts:10-17 | groups of no assets have summed value 0 |
| PortfolioCalculations.GroupsForCover | src/utils/portfolioCalculations.ts:14 | under distinct keys covering every asset, the group values add up to the total |
| PortfolioCalculations.EntriesPartition | src/utils/portfolioCalculations.ts:75-82 | the groups' member lists together hold every asset exactly once |
| PortfolioCalculations.EntriesCarryKey | src/utils/portfolioCalculations.ts:75-82 | every member of a group carries that group's key |
| PortfolioCalculations.EntriesValueSum | src/utils/portfolioCalculations.ts:10-17 | the group values add up to the portfolio total |
| PortfolioCalculations.EntriesValueBounds | src/utils/portfolioCalculations.ts:14 | with non-negative asset values, each group value lies between 0 and the total |
| PortfolioCalculations.EntriesShares | src/utils/portfolioCalculations.ts:29 | group percentages sum to 100 over a positive total, are all 0 otherwise, and lie in [0, 100] for non-negative values |
| PortfolioCalculations.DefaultColor | src/utils/portfolioCalculations.ts:30 | the fallback colour `#6B7280` for a key no colour table lists; a constant |
| PortfolioCalculations.TypeColors | src/utils/portfolioCalculations.ts:19-24 | the by-type colour table; a constant, covered for every type by `TypeLabelsDistinct` |
| PortfolioCalculations.RiskColors | src/utils/portfolioCalculations.ts:46-53 | the by-risk colour table; a constant, covered for every profile by `RiskLabelsDistinct` |
| PortfolioCalculations.RiskLabels | src/utils/portfolioCalculations.ts:55-62 | the by-risk label table; a constant, covered for every profile by `RiskLabelsDistinct` |
| PortfolioCalculations.PotColors | src/utils/portfolioCalculations.ts:84-91 | the by-pot colour table; a constant, covered for every pot by `PotLabelsDistinct` |
| PortfolioCalculations.PotLabels | src/utils/portfolioCalculations.ts:93-100 | the by-pot label table; a constant, covered for every pot by `PotLabelsDistinct` |
| PortfolioCalculations.LookupOr | src/utils/portfolioCalculations.ts:30 | the `||` fallback: a listed key gives its table entry, and a key the table does not list gives the fallback |
| PortfolioCalculations.UpperChar | src/utils/portfolioCalculations.ts:27 | a lower-case ASCII letter becomes the upper-case letter at the same place in the alphabet, any other character is kept, and the result is never a lower-case ASCII letter |
| PortfolioCalculations.Upper | src/utils/portfolioCalculations.ts:27 | upper-casing keeps the length; each lower-case ASCII letter becomes its upper-case letter and every other character is kept, so no lower-case ASCII letter is left |
| PortfolioCalculations.TypeLabel | src/utils/portfolioCalculations.ts:27 | the by-type label is the key upper-cased character by character: same length, a-z mapped to A-Z, every other character kept |
| PortfolioCalculations.TypeLabelsOfNames | src/utils/portfolioCalculations.ts:27 | the four type labels are `STOCK`, `FUND`, `SIPP` and `CASH` |
| PortfolioCalculations.RiskLabel | src/utils/portfolioCalculations.ts:65 | a listed profile gets its table label; any other key is its own label |
| PortfolioCalculations.PotLabel | src/utils/portfolioCalculations.ts:103 | a listed pot gets its table label; any other key is its own label |
| PortfolioCalculations.TypeLabelsDistinct | src/utils/portfolioCalculations.ts:19-27 | distinct asset types get distinct upper-cased labels; the colour table covers every type |
| PortfolioCalculations.RiskLabelsDistinct | src/utils/portfolioCalculations.ts:46-62 | both risk tables cover every profile, and distinct profiles get distinct labels |
| PortfolioCalculations.PotLabelsDistinct | src/utils/portfolioCalculations.ts:84-100 | both pot tables cover every pot, and distinct pots get distinct labels |
| PortfolioCalculations.TypeKeysAreNames | src/utils/portfolioCalculations.ts:11 | every by-type key is the name of an asset type |
| PortfolioCalculations.RiskKeysAreNames | src/utils/portfolioCalculations.ts:38 | every by-risk key is the name of a risk profile |
| PortfolioCalculations.PotKeysAreNames | src/utils/portfolioCalculations.ts:76 | every by-pot key is the name of a risk profile |
| PortfolioCalculations.ToAssetAllocations | src/utils/portfolioCalculations.ts:26-31 | one row per group |
| PortfolioCalculations.ToRiskAllocations | src/utils/portfolioCalculations.ts:64-69 | one row per group |
| PortfolioCalculations.ToPotAllocations | src/utils/portfolioCalculations.ts:102-108 | one row per group |
| PortfolioCalculations.CalculateAssetAllocations | src/utils/portfolioCalculations.ts:7-32 | the by-type view equals the closed form `AssetAllocationsOf` |
| PortfolioCalculations.AssetAllocationsRows | src/utils/portfolioCalculations.ts:26-31 | one row per distinct type in first-seen order, with the upper-cased label, the summed value of that type's assets, its percentage of the total and the table colour; no assets give no rows |
| PortfolioCalculations.AssetAllocationsTotals | src/utils/portfolioCalculations.ts:26-31 | the row values add up to the total; the percentages add up to 100 over a positive total, are all 0 over a total that is not positive, and each lies in [0, 100] when no asset value is negative |
| PortfolioCalculations.AssetAllocationsLabelsDistinct | src/utils/portfolioCalculations.ts:27 | no two rows share a label |
| PortfolioCalculations.CalculateRiskAllocations | src/utils/portfolioCalculations.ts:34-70 | the by-risk view equals the closed form `RiskAllocationsOf` |
| PortfolioCalculations.RiskAllocationsRows | src/utils/portfolioCalculations.ts:64-69 | one row per distinct risk profile in first-seen order, with its table label (never the fallback), the summed value, the percentage and the table colour |
| PortfolioCalculations.RiskAllocationsTotals | src/utils/portfolioCalculations.ts:64-69 | the row values add up to the total; the percentages add up to 100 over a positive total, are all 0 over a total that is not positive, and each lies in [0, 100] when no asset value is negative |
| PortfolioCalculations.RiskAllocationsLabelsDistinct | src/utils/portfolioCalculations.ts:65 | no two rows share a label |
| PortfolioCalculations.CalculatePotAllocations | src/utils/portfolioCalculations.ts:72-109 | the by-pot view equals the closed form `PotAllocationsOf` |
| PortfolioCalculations.PotAllocationsRows | src/utils/portfolioCalculations.ts:102-108 | one row per distinct pot in first-seen order, with its table label, a value equal to the total of its own member list, the percentage and the table colour |
| PortfolioCalculations.PotAllocationsTotals | src/utils/portfolioCalculations.ts:102-108 | the row values add up to the total; the percentages add up to 100 over a positive total, are all 0 over a total that is not positive, and each lies in [0, 100] when no asset value is negative |
| PortfolioCalculations.PotAllocationsLabelsDistinct | src/utils/portfolioCalculations.ts:103 | no two rows share a label |
| PortfolioCalculations.PotAllocationsPartition | src/utils/portfolioCalculations.ts:75-82 | row i lists exactly the assets in pot i, in input order; together the rows hold every asset exactly once |
| PortfolioCalculations.UpdateAssetAllocations | src/utils/portfolioCalculations.ts:111-118 | each asset is kept except that its allocation becomes its percentage of the total (0 when the total is not positive) |
| PortfolioCalculations.UpdateKeepsTotal | src/utils/portfolioCalculations.ts:111-118 | stamping allocations leaves the portfolio total unchanged |
| PortfolioCalculations.UpdateAllocationsShares | src/utils/portfolioCalculations.ts:116 | the allocations sum to 100 over a positive total, are all 0 otherwise, and lie in [0, 100] for non-negative values |
| PortfolioCalculations.UpdateIdempotent | src/utils/portfolioCalculations.ts:111-118 | stamping allocations twice gives the same list as once |
| PortfolioCalculations.CreatePortfolio | src/utils/portfolioCalculations.ts:120-127 | the record holds the stamped assets and the total, the total equals that of the stamped assets, and no risk profile is set |
| RetirementCalculations.Pow | src/utils/retirementCalculations.ts:22 | `Math.pow` for a whole-number exponent; no contract of its own, `GrownIsPow` ties it to year-by-year growth |
| RetirementCalculations.Growth | src/utils/retirementCalculations.ts:67 | the yearly factor `1 + rate / 100` (also at lines 22, 69 and 70): one less than the factor, times 100, is the rate, and the factor exceeds 1 exactly when the rate is positive |
| RetirementCalculations.RetiredIncome | src/utils/retirementCalculations.ts:22-23 | the retired income equals the current income grown year by year over all working years, times the replacement ratio |
| RetirementCalculations.YearRow | src/utils/retirementCalculations.ts:14-63 | one year in closed form; no contract of its own, its fields are stated by `TimelineRows`, `YearFlows`, `NetWorthRecurrence` and the three closed-form lemmas |
| RetirementCalculations.GrownIsPow | src/utils/retirementCalculations.ts:22 | growing a figure year by year by a factor equals multiplying it by the factor's power |
| RetirementCalculations.EndAge | src/utils/retirementCalculations.ts:11 | the end age is the larger of 90 and the retirement age plus 25 |
| RetirementCalculations.Timeline | src/utils/retirementCalculations.ts:13-71 | the first n years form n rows |
| RetirementCalculations.TimelineLength | src/utils/retirementCalculations.ts:11-13 | the timeline reaches age 90, runs more than 25 years past retirement, and ends at one of those two ages |
| RetirementCalculations.CalculateRetirementTimeline | src/utils/retirementCalculations.ts:3-74 | the loop over the four running figures produces exactly `Timeline` for the full age range |
| RetirementCalculations.SimulateYear | src/utils/retirementCalculations.ts:14-63 | from the running figures of year i and the opening net worth, the row built is year i in closed form |
| RetirementCalculations.GrowFigures | src/utils/retirementCalculations.ts:65-70 | the growth step turns the running figures of year i into those of year i + 1: income frozen once retired, both budgets growing every year |
| RetirementCalculations.TimelineSnoc | src/utils/retirementCalculations.ts:52-63 | appending the next year's row, opened on the last net worth, gives the next timeline |
| RetirementCalculations.TimelinePrefix | src/utils/retirementCalculations.ts:52-63 | a shorter timeline is a prefix of a longer one |
| RetirementCalculations.TimelineAt | src/utils/retirementCalculations.ts:13-63 | row i is year i opened on row i-1's net worth (the current savings for row 0) |
| RetirementCalculations.TimelineRows | src/utils/retirementCalculations.ts:13-63 | ages count up by one from the current age; each row carries the retirement age; a row is retired exactly when its age has reached it; savings only while working; net worth is never negative |
| RetirementCalculations.RetiredStaysRetired | src/utils/retirementCalculations.ts:14 | once a row is retired, every later row is retired |
| RetirementCalculations.NetWorthRecurrence | src/utils/retirementCalculations.ts:39-50 | a row's net worth is the opening balance plus twice the return, plus savings and income, minus both expenses, clamped at 0 |
| RetirementCalculations.YearFlows | src/utils/retirementCalculations.ts:39-50 | returns are on the opening balance, the carryover is the net cash flow, and the net worth is the clamped update |
| RetirementCalculations.ReturnsCountedTwice | src/utils/retirementCalculations.ts:42-50 | the new net worth grows the opening balance by twice the return rate |
| RetirementCalculations.WorkingIncomeClosedForm | src/utils/retirementCalculations.ts:18-19 | a working year's income is the current income times the growth factor to the power of the year |
| RetirementCalculations.RetiredIncomeClosedForm | src/utils/retirementCalculations.ts:20-24 | a retired year's income is the income after all working years times the replacement ratio |
| RetirementCalculations.BudgetsClosedForm | src/utils/retirementCalculations.ts:27-30 | yearly expenses and holiday spending are the monthly figures grown to that year, times 12 |
| RetirementCalculations.RetiredIncomeIsFlat | src/utils/retirementCalculations.ts:20-24 | all retired rows have the same income |
| RetirementCalculations.TimelineIgnoresInflationAndRisk | src/utils/retirementCalculations.ts:3-74 | changing the inflation rate or the risk profile leaves the timeline unchanged |
| RetirementCalculations.YearIgnoresInflationAndRisk | src/utils/retirementCalculations.ts:14-63 | the same for one year |
| RetirementCalculations.FirstRetirementIndex | src/utils/retirementCalculations.ts:81 | the index found is the first row whose age equals its retirement age, or the length when there is none |
| RetirementCalculations.FindRetirementRow | src/utils/retirementCalculations.ts:81 | a row is found if and only if some row's age equals its retirement age, and the row found is the first such row |
| RetirementCalculations.CalculateRetirementReadiness | src/utils/retirementCalculations.ts:76-101 | not ready with zeros when no retirement row exists; otherwise ready exactly when the final net worth is positive; a ready verdict has no shortfall and rate 0; otherwise the shortfall is the final deficit; the rate never exceeds 50 |
| RetirementCalculations.RetirementRowOfTimeline | src/utils/retirementCalculations.ts:81 | in a simulated timeline, the retirement row found is the row at the retirement age |
| RetirementCalculations.RateDefinedForTimeline | src/utils/retirementCalculations.ts:92-94 | a simulated timeline has a defined rate exactly when its final net worth is positive or it has a working year with a non-zero income |
| RetirementCalculations.ReadinessOfTimeline | src/utils/retirementCalculations.ts:88-94 | on a simulated timeline the verdict is "ready" exactly when the final net worth is positive, with shortfall 0 and rate 0 |
| RetirementCalculations.ExamplePlanFirstYear | src/utils/retirementCalculations.ts:32-39 | for the example plan (ages 30 to 65), the timeline has 61 rows, and its first row is a working year at 30 with savings 7500 and returns 700 |
| RetirementCalculations.ExamplePlanRetirementYear | src/utils/retirementCalculations.ts:20-24 | for the example plan, the row at 65 (row 35 of any timeline of at least 36 rows) is retired with income 50000 × 1.03^35 × 0.7 |
| RetirementCalculations.ExampleRetiredIncome | src/utils/retirementCalculations.ts:22-23 | the example plan's retired income is 50000 × 1.03^35 × 0.7 |

## Left out

- Floating point: money and rates are exact reals, so IEEE rounding, infinities and NaN do not arise in the model.
- CalculateRetirementReadiness: requires `RateDefined`. The source divides the shortfall by the first row's income times the years to retirement. When that product is 0 and the plan is not ready, the source's rate is NaN if the final net worth is exactly 0 (0 / 0). If the final net worth is negative, the rate is 50, since `Math.min(50, Infinity)` is 50; it is -Infinity instead when the product is a negative zero. The model excludes all of these cases rather than modelling IEEE infinities and NaN. `RateDefinedForTimeline` says exactly when a simulated timeline meets the precondition.
- CalculateRetirementTimeline: requires `currentAge <= retirementAge`. `Pow` takes a whole-number exponent, so negative exponents are excluded on purpose. For a current age later than the retirement age, the source raises the growth factor to a negative whole power, marks every row retired, and gives every row that retired income.
- Upper: upper-cases ASCII letters only. That covers every key that occurs: the keys are asset-type names.
- The portfolio's `lastUpdated` timestamp (`src/types/portfolio.ts:14`, set from the clock at `src/utils/portfolioCalculations.ts:126`) is not modelled.
- One bucket shape serves all three groupings. The `count` each type and risk bucket accumulates is modelled but never read, as in the source. The source's pot buckets collect their assets instead of a count; the model's pot bucket also carries the unread count. The model's type and risk buckets also keep member lists, which the source's buckets do not have; no view row reads them.
- The retirement assumptions' risk-profile union is modelled with the portfolio side's `RiskProfile` datatype, since the two unions list the same six names.
- Everything outside the two calculation files is not part of this model: the UI components, the charts, and persistence.
