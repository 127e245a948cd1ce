# A verified model of the isA_Chain ledgers

This project models the parts of isA_Chain whose correctness is arithmetic or a property of
whole runs, and proves those properties in Dafny 4.11. `dafny verify dfyconfig.toml` checks
everything.

| file | what it models |
|---|---|
| `BondingCurve.dfy`, `AgentToken.dfy` | the three pricing curves, the Newton square root and the binary search; buys and sells over supply, reserve and holders |
| `Gcd.dfy`, `Emission.dfy` | the halving schedule, the two-level split, the twofold reduction of a share, and the cap on everything emitted |
| `Staking.dfy`, `ProofOfStake.dfy` | the staking vault with unbonding and slashing; the validator list that caches it and weighted round-robin proposers |
| `Finality.dfy` | votes, the floor-rounded quorum test, and the intersection of quorums |
| `SlidingWindow.dfy`, `AgentWallet.dfy`, `CreditBilling.dfy` | lazily reset windows and the bound they really give on every interval of a run |
| `RecordIndex.dfy`, `Settlement.dfy`, `SettlementBridge.dfy` | append-only records with indices, fee rounding, the dedup window, and batching without loss |
| `Channel.dfy`, `Treasury.dfy`, `Vesting.dfy` | payment channels, treasury distributions, vesting releases |
| `Types.dfy`, `Arithmetic.dfy`, `MapSums.dfy`, `Sequences.dfy` | shared identifiers, floor division, sums over maps and sequences, proportional shares |

Each object of the source that is updated in place is a class with the same fields. Its methods
are proved against a step function on the value of those fields (`Step`, `Transition`, `Act`),
and the properties are lemmas over runs of that function. A record that the source stores in a
map and rewrites there is a datatype value in a map field. A `HashMap` is a map read in
arbitrary order.

Amounts, heights and counters are natural numbers. Where the source saturates (`saturating_add`,
`saturating_mul`, `saturating_sub`, `checked_add(..).unwrap_or(MAX)`) the u128 bound is written
out with `Sat` and `SatSub`, and the one truncating cast (voting weight to u64) is written as a
remainder. Plain `+` and `*`, which the source leaves to panic or wrap, are exact; where that
matters a lemma gives the condition under which they fit (`LinearBuyFits`, `LinearSellFits`,
`PricesFitIff`, `SigmoidProbesFit`, `PayeesFitIff`, `CompiledAmountIff`, `ReducedProductIsLowest`,
`CumulativeWeightFits`). Hashes are taken to be injective: ids are datatype values holding the
hashed fields. Map entry APIs, error texts, timestamps that are only copied, and metadata are not
represented.

## Where the code and its documentation differ

The model follows the code.

- The binary search is documented to find the maximum purchasable count. Its first upper bound
  cuts it off: always harmless on a sigmoid whose price is at least 1, far too low on the
  quadratic curve, whose price is scaled differently from its cost (`SearchMaximumIff`,
  `SigmoidMaximumIff`, `QuadraticSearchIsCutOff`).
- The reduction before multiplying is documented to keep the product within u128. It reaches
  lowest terms and no further (`ReducedProductIsLowest`, `ReducedProductCanOverflow`).
- Emission weights are documented to sum to 10 000; only a sum of zero is refused, and shares
  are taken of the actual sum (`AcceptedWeightsIff`, `AnyWeightSumEmits`). The comment that the
  sum rules out overflow relies on that unchecked 10 000 (`CompiledAmountIff`, `WeightSumWraps`).
- `finalize` is documented to need a justified block and does not check it
  (`FinalizedWithoutVote`). Finalized blocks have a quorum exactly when every finalization met
  one, which a caller that does check for a justified block ensures (`FinalizedQuorateIff`,
  `JustifiedSuffices`); then the intersection of quorums covers finalized blocks too.
- The cost is documented as the integral of the price. On the sigmoid it is a single trapezoid,
  whatever the shape between its ends, so it depends on how a purchase is split
  (`SigmoidSplitIff`, `SigmoidSplitsIff`). While the price stays the same the reserve is still
  governed by the supply (`FlatRun`, `FlatReserve`); past the ramp it is not, on any sigmoid that
  charges at all (`SigmoidNeverRefusesIff`, `SigmoidReserveBoundedIff`). On the quadratic curve
  the cost charges the price per million tokens instead of per token (`QuadraticBetween`).
- Treasury shares multiply before dividing, without the reduction that the emission controller
  documents as necessary, and overflow at ordinary amounts (`PayeesFitIff`,
  `OrdinaryAmountsWrap`).
- The linear inversion ignores that the cost is rounded down, so it can return fewer tokens than
  the payment covers (`LinearMaximumIff`, `LinearNotAlwaysMaximum`).
- A daily, monthly or period limit, and the request limit, bound each fixed window
  (`FixedWindowBound`, `FixedRateBound`); over a sliding interval the bound is twice that and is
  attained (`SlidingSpendBound`, `TwiceTheDailyLimit`, `SlidingRateBound`). A request limit of 0
  still admits one request a period (`ZeroLimitAcceptsOne`).
- The net amount of a settlement is documented as gross minus fee; that holds for every amount
  exactly up to a rate of 10 000 basis points (`SplitAlwaysConservesIff`).
- A channel id is derived from sender, receiver and height and written without a lookup, so a
  second opening at one height replaces a live channel (`OverwrittenIff`).
- The treasury constructor is documented to refuse a rate above 10 000 and does not
  (`FeeWithinGrossIff`, `ConstructorTakesAnyRate`).

Not mentioned either way: a channel that expires keeps its deposit, because `finalize_channel`
refuses it and nothing leaves that status (`CanPayIff`).

## Model

| member | source | states |
|---|---|---|
| BondingCurve.PriceMonotone | core/blockchain/src/agent_token/curve.rs:23-46 | On all three curves the price never falls as supply grows |
| BondingCurve.LinearPrice | core/blockchain/src/agent_token/curve.rs:25-25 | The linear price is slope times supply over SCALE, rounded down |
| BondingCurve.QuadraticPrice | core/blockchain/src/agent_token/curve.rs:26-28 | The quadratic price is the rounded product of coefficient and supply over SCALE, times supply over SCALE, rounded again |
| BondingCurve.QuadraticRoundsTwice | core/blockchain/src/agent_token/curve.rs:26-28 | Concrete supply at which rounding twice gives 1 and rounding once would give 2 |
| BondingCurve.SigmoidRamp | core/blockchain/src/agent_token/curve.rs:37-43 | Between the plateaus the price has risen by nine tenths of the top price in proportion to the distance covered, rounded down |
| BondingCurve.SigmoidPlateaus | core/blockchain/src/agent_token/curve.rs:33-36 | Up to a fifth of the midpoint the price is max_price/20; from four fifths on (past the first) it is max_price*19/20 |
| BondingCurve.BuyCostMonotone | core/blockchain/src/agent_token/curve.rs:49-73 | More tokens never cost less, saturation included |
| BondingCurve.SellUndoesBuy | core/blockchain/src/agent_token/curve.rs:76-100 | Selling `t` tokens from supply `s + t` pays exactly what buying them at `s` cost, on every curve |
| BondingCurve.CostBetweenPrices | core/blockchain/src/agent_token/curve.rs:49-73 | No purchase costs more than its last price per token (plus one on the linear curve, whose price is itself rounded), saturation included; a linear or sigmoid one costs at least its first |
| BondingCurve.QuadraticBetween | core/blockchain/src/agent_token/curve.rs:28-66 | The quadratic curve charges its price once per SCALE tokens: the cost lies between the first and the last price times the multiples of SCALE passed (the lower half unless a product saturates) |
| BondingCurve.QuadraticCost | core/blockchain/src/agent_token/curve.rs:59-66 | The quadratic cost in full: cubes and product each stop at the u128 maximum, a third of the rest is charged, rounded down |
| BondingCurve.Isqrt | core/blockchain/src/agent_token/curve.rs:134-145 | The Newton loop terminates with the square root found by counting upwards |
| BondingCurve.NewtonStaysAbove | core/blockchain/src/agent_token/curve.rs:139-143 | One Newton step from any positive start stays at or above the root |
| BondingCurve.BinarySearchTokens | core/blockchain/src/agent_token/curve.rs:148-164 | The binary search finds the largest affordable count up to its first upper bound, as a downward linear scan does |
| BondingCurve.TokensForIsa | core/blockchain/src/agent_token/curve.rs:104-130 | Tokens for a payment on each curve, with the zero-amount and zero-parameter cases |
| BondingCurve.SearchedTokens | core/blockchain/src/agent_token/curve.rs:120-164 | Quadratic and sigmoid payments buy the most tokens they cover among those up to one more than at the present price |
| BondingCurve.NothingTraded | core/blockchain/src/agent_token/curve.rs:77-107 | No tokens for no payment or on a flat linear or quadratic curve; no proceeds for no tokens or more than the supply |
| BondingCurve.LinearInversion | core/blockchain/src/agent_token/curve.rs:109-119 | The linear inversion squeezes the exact integral: the tokens are covered by the payment, one more would cost strictly more than was sent |
| BondingCurve.TokensAlwaysAffordable | core/blockchain/src/agent_token/curve.rs:104-130 | On every curve the cost of the tokens handed out is at most the payment |
| BondingCurve.LinearAffordableIff | core/blockchain/src/agent_token/curve.rs:55-58 | A payment covers t linear tokens, rounding included, if and only if supply + t is within the floor root of supply^2 + (2*SCALE*(isa+1) - 1)/slope |
| BondingCurve.LinearMaximumIff | core/blockchain/src/agent_token/curve.rs:109-119 | The linear answer is the most tokens affordable if and only if that root equals the root the code takes, of supply^2 + 2*SCALE*isa/slope |
| BondingCurve.LinearNotAlwaysMaximum | core/blockchain/src/agent_token/curve.rs:109-119 | Concrete payment of 1 for which one more token than returned still costs 1 |
| BondingCurve.SearchMaximumIff | core/blockchain/src/agent_token/curve.rs:148-164 | The searched count is the true maximum over all counts if and only if one token past the first bound is too dear |
| BondingCurve.SigmoidMaximumIff | core/blockchain/src/agent_token/curve.rs:126-128 | On the sigmoid: if and only if the current price is at least 1, or the price just past the bound is at least 2 |
| BondingCurve.SigmoidMaximum | core/blockchain/src/agent_token/curve.rs:126-128 | With a top price of at least 20 the sigmoid search always returns the true maximum |
| BondingCurve.QuadraticSearchIsCutOff | core/blockchain/src/agent_token/curve.rs:148-152 | Concrete quadratic payment of 1 000 000 that buys 11 tokens at cost 0 although 5 000 000 tokens were affordable |
| BondingCurve.LinearBuyFits | core/blockchain/src/agent_token/curve.rs:109-118 | When the payment product and the sum under the root fit in u128, no later product of that linear buy overflows |
| BondingCurve.PricesFitIff | core/blockchain/src/agent_token/curve.rs:30-43 | A sigmoid price overflows at no supply if and only if 4*midpoint, 19*max_price and the last product of the ramp fit in u128 |
| BondingCurve.SigmoidProbesFit | core/blockchain/src/agent_token/curve.rs:67-71 | On such a curve no addition or multiplication of a search probe, those inside the price included, overflows while supply + isa + 1 and 2*max_price*(isa+1) fit |
| BondingCurve.RampOverflows | core/blockchain/src/agent_token/curve.rs:37-42 | The ramp product is the one that overflows first: concrete curve whose price exceeds u128 inside although the plateau and trapezoid products fit |
| BondingCurve.CostIsArea | core/blockchain/src/agent_token/curve.rs:55-66 | Unless a product saturates, linear and quadratic cost is the area under the curve between the supplies, rounded down |
| BondingCurve.SplitPurchase | core/blockchain/src/agent_token/curve.rs:49-66 | Buying in two parts costs at most one unit less than buying at once, and never more |
| BondingCurve.SigmoidSplit | core/blockchain/src/agent_token/curve.rs:67-71 | What a sigmoid purchase costs beyond its two parts, exactly: half of what rounding drops less (pm - p0)*b - (p1 - pm)*a, for the three prices at the ends |
| BondingCurve.SigmoidSplitIff | core/blockchain/src/agent_token/curve.rs:67-71 | The sigmoid splits like the other curves (parts never dearer, at most one cheaper) if and only if that excess stays within the rounding |
| BondingCurve.SigmoidSplitOnPlateau | core/blockchain/src/agent_token/curve.rs:34-43 | Within one plateau the parts cost exactly the whole |
| BondingCurve.SigmoidCostDependsOnPath | core/blockchain/src/agent_token/curve.rs:67-71 | Both sides of the condition fail: concrete purchases whose parts cost 6200 instead of 8000 and 27150 instead of 21750 |
| BondingCurve.SigmoidSplitsIff | core/blockchain/src/agent_token/curve.rs:67-71 | The parts of a purchase cost at most the whole, at all supplies and for all splits, if and only if the top price of the sigmoid is 0 or 1 |
| AgentTokens.AgentTokenFactory.CreateToken | core/blockchain/src/agent_token/factory.rs:25-39 | Creates an empty token once per agent; a second creation is refused |
| AgentTokens.AgentTokenFactory.BuyTokens | core/blockchain/src/agent_token/factory.rs:42-76 | The whole new factory state and outcome of a buy, errors in the order of the source; keeps every ledger |
| AgentTokens.AgentTokenFactory.SellTokens | core/blockchain/src/agent_token/factory.rs:79-117 | The whole new factory state and outcome of a sell, removing a holder at zero; keeps every ledger |
| AgentTokens.StepKeepsLedgers | core/blockchain/src/agent_token/factory.rs:25-117 | After any operation each token has positive balances that add up to its supply |
| AgentTokens.BuyOutcome | core/blockchain/src/agent_token/factory.rs:57-69 | A buy succeeds if and only if it yields a token; the final cost check never refuses |
| AgentTokens.CreateEffect | core/blockchain/src/agent_token/factory.rs:25-39 | The new token is empty, on the given curve, and carries its creator and height |
| AgentTokens.BuyEffect | core/blockchain/src/agent_token/factory.rs:42-76 | The tokens bought go to the buyer and their cost to the reserve; every other holder keeps his balance |
| AgentTokens.SellEffect | core/blockchain/src/agent_token/factory.rs:79-117 | A sell succeeds if and only if the seller holds the tokens and the reserve covers the cost of buying them back; that cost moves to the seller and only his balance falls |
| AgentTokens.TradeErrors | core/blockchain/src/agent_token/factory.rs:48-105 | Which refusal a buy or a sell meets |
| AgentTokens.BuyThenSell | core/blockchain/src/agent_token/factory.rs:42-117 | Buying and at once selling the same tokens returns the exact charge and restores the whole factory |
| AgentTokens.OthersUntouched | core/blockchain/src/agent_token/factory.rs:25-117 | An operation on one agent leaves every other token alone |
| AgentTokens.CreatedCount | core/blockchain/src/agent_token/factory.rs:25-39 | The creation counter is the number of tokens in every reachable state |
| AgentTokens.ReserveTracksArea | core/blockchain/src/agent_token/factory.rs:42-117 | Over every run, the reserve is below the area under the curve by less than one unit per buy and above it by less than one unit per sell (linear, unsaturated quadratic) |
| AgentTokens.LinearReserve | core/blockchain/src/agent_token/factory.rs:42-117 | For a linear token after any run: slope*supply^2 - (2*SCALE-1)*buys <= 2*SCALE*reserve <= slope*supply^2 + (2*SCALE-1)*sells |
| AgentTokens.LinearSellFits | core/blockchain/src/agent_token/curve.rs:83-85 | While 2*SCALE*(reserve + buys) fits in u128, no square and no product of any sell of a linear token overflows, after any run |
| AgentTokens.ShortfallBounded | core/blockchain/src/agent_token/factory.rs:103-105 | A sell refused for lack of reserve misses strictly less than the number of buys that ever succeeded; after one buy there is no such refusal |
| AgentTokens.RefusalHappens | core/blockchain/src/agent_token/factory.rs:103-105 | Concrete run in which a holder of 1999 tokens is refused: two payments of 1 were charged 0 each, and selling all asks for 1 |
| AgentTokens.DustAfterSellOut | core/blockchain/src/agent_token/factory.rs:79-117 | When all tokens are sold back the reserve holds less than one unit per sell and no holder remains |
| AgentTokens.SellInParts | core/blockchain/src/agent_token/factory.rs:42-117 | After buying at once, both partial sales go through if and only if the reserve covers the two parts, and then the token is restored on every curve except for the reserve, which keeps exactly what the whole cost beyond the parts |
| AgentTokens.SellInPartsOnExact | core/blockchain/src/agent_token/factory.rs:42-117 | On the linear and unsaturated quadratic curve both sales always go through and the reserve gains at most one unit |
| AgentTokens.SellInPartsPaysIff | core/blockchain/src/agent_token/factory.rs:42-117 | That trip never pays on the linear and unsaturated quadratic curve; on the sigmoid it pays if and only if the split excess outweighs the rounding |
| AgentTokens.SigmoidReserveRunsDry | core/blockchain/src/agent_token/factory.rs:79-117 | Concrete sigmoid whose reserve reaches 0 with any number of tokens outstanding: for every n a run in which a holder sells part of his tokens for 2750 more than he paid for all of them, and the other holder is refused |
| AgentTokens.FlatRun | core/blockchain/src/agent_token/factory.rs:42-117 | Over any part of any run during which the sigmoid price does not move, the reserve moves by exactly that price times the change of the supply |
| AgentTokens.FlatReserve | core/blockchain/src/agent_token/factory.rs:42-117 | From creation on, while the supply stays on the low plateau, the reserve is exactly max_price/20 times the supply |
| AgentTokens.FlatNeverRefuses | core/blockchain/src/agent_token/factory.rs:103-105 | There no sale is refused for lack of reserve |
| AgentTokens.SigmoidShortfall | core/blockchain/src/agent_token/factory.rs:42-117 | On every sigmoid with a top price of 2 or more, for every n: one buy, after which a sale the holder could cover is refused because the reserve misses more than n |
| AgentTokens.SigmoidNeverRefusesIff | core/blockchain/src/agent_token/factory.rs:103-105 | A sigmoid token refuses no sale for lack of reserve, in any run, if and only if its top price is 0 or 1: a check at creation |
| AgentTokens.SigmoidReserveUnbounded | core/blockchain/src/agent_token/factory.rs:42-117 | On every sigmoid with a top price of 2 or more, for every n: a run of 3n trades that ends with supply 0, no holder, and a reserve of at least n |
| AgentTokens.SigmoidReserveBoundedIff | core/blockchain/src/agent_token/factory.rs:42-117 | What is left in the reserve when all tokens are sold back is bounded, over all runs, if and only if the top price is 0 or 1 |
| Gcds.ComputeGcd | core/blockchain/src/emission/controller.rs:219-230 | The loop computes the recursive divisor function, with 1 for two zeros |
| Gcds.GcdDivides | core/blockchain/src/emission/controller.rs:219-230 | The result divides both arguments |
| Gcds.GcdGreatest | core/blockchain/src/emission/controller.rs:219-230 | No common divisor is larger |
| Gcds.ReducedShareIsExact | core/blockchain/src/emission/controller.rs:203-211 | The doubly reduced fraction gives exactly floor(total * stake / total_stake) |
| Gcds.ReducedProductIsLowest | core/blockchain/src/emission/controller.rs:203-211 | The two reductions reach lowest terms, so the product that must fit in u128 is total*stake over its greatest divisor with total_stake |
| Gcds.ReducedProductCanOverflow | core/blockchain/src/emission/controller.rs:198-211 | Concrete amounts for which the reduced product still exceeds u128 |
| Emissions.ReducedShare | core/blockchain/src/emission/controller.rs:203-211 | One provider share equals the plain floor division |
| Emissions.SplitByStake | core/blockchain/src/emission/controller.rs:169-215 | Every provider of the subnet with positive stake is listed once with its floor share; empty without stakers; any map order |
| Emissions.SplitDust | core/blockchain/src/emission/controller.rs:195-214 | Shares stay within the subnet amount, short of it by less than one unit per provider |
| Emissions.StakesCounted | core/blockchain/src/emission/controller.rs:174-187 | A provider counts in a subnet exactly with a positive stake there, at that stake |
| Emissions.EmissionController.Distribute | core/blockchain/src/emission/controller.rs:105-123 | Each subnet once with its floor share of the reward, its split, and its running total credited |
| Emissions.EmissionController.Emit | core/blockchain/src/emission/controller.rs:66-134 | Guards in order and unchanged state on refusal; otherwise history, totals and last height as recorded |
| Emissions.EmissionDust | core/blockchain/src/emission/controller.rs:105-126 | A block distributes at most its reward, short of it by less than one unit per subnet |
| Emissions.SubnetProportion | core/blockchain/src/emission/controller.rs:105-123 | Each subnet gets its own weight's proportion of the reward, rounded down |
| Emissions.ProviderProportion | core/blockchain/src/emission/controller.rs:195-214 | Each provider gets its own stake's proportion of its subnet's amount, rounded down |
| Emissions.EmissionRecorded | core/blockchain/src/emission/controller.rs:105-134 | An accepted call appends one entry per subnet distributing the reward of its own height, and records that height |
| Emissions.FirstEraReward | core/blockchain/src/emission/controller.rs:40-50 | The first interval, or every height without halving, pays the larger of base and minimum reward |
| Emissions.AcceptedWeightsIff | core/blockchain/src/emission/controller.rs:86-94 | A call at a fresh height with a positive reward is accepted if and only if its weights do not sum to zero |
| Emissions.RefusalsMean | core/blockchain/src/emission/controller.rs:71-100 | Which refusal a call meets: an emitted height, no subnets, weights that sum to zero, no reward, in that order |
| Emissions.AnyWeightSumEmits | core/blockchain/src/emission/controller.rs:86-109 | Concrete weights that sum to 5 and distribute the whole reward |
| Emissions.CompiledAmountIff | core/blockchain/src/emission/controller.rs:91-109 | While the weights add up within 32 bits, a subnet amount compiled without overflow checks equals the exact one if and only if reward times weight fits in u128, and is never more |
| Emissions.WeightSumWraps | core/blockchain/src/emission/controller.rs:91-109 | Beyond 32 bits: two weights whose sum wraps to 1 and give one subnet 2^32 - 1 times the reward |
| Emissions.RewardHalves | core/blockchain/src/emission/controller.rs:40-50 | Reward is constant within an interval, halves from one interval to the next above the floor, and is constant past the shift limit |
| Emissions.SecondGuardRedundant | core/blockchain/src/emission/controller.rs:75-84 | In every state of a run the last-height guard refuses nothing that the history guard would let through |
| Emissions.EachHeightAtMostOnce | core/blockchain/src/emission/controller.rs:72-84 | Two calls of one run that both emit have different heights |
| Emissions.SubnetTotalsBalance | core/blockchain/src/emission/controller.rs:115-127 | Subnet totals are the per-subnet sums of the history and add up to everything emitted |
| Emissions.HeightsCountEmissions | core/blockchain/src/emission/controller.rs:75-131 | The distinct heights in the history are as many as the emissions |
| Emissions.DistinctHeightsCap | core/blockchain/src/emission/controller.rs:40-50 | Rewards of any set of distinct heights total at most two intervals of the base reward plus, per height, the floor and the shift-limit tail |
| Emissions.EmissionCap | core/blockchain/src/emission/controller.rs:40-134 | That cap on the total emitted, in every reachable state, for heights in any order and any map order |
| Emissions.EmissionCapBelowShiftLimit | core/blockchain/src/emission/controller.rs:40-134 | With a base reward below 2^127: total <= 2 * interval * base + emissions * min_reward |
| Emissions.EmissionCapWithoutHalving | core/blockchain/src/emission/controller.rs:41-42 | With interval 0: at most max(base, min) per emission |
| Finality.FinalityTracker.RegisterBlock | core/blockchain/src/finality/tracker.rs:35-48 | Registers a pending block once; an existing record is kept |
| Finality.FinalityTracker.AddVoteTo | core/blockchain/src/finality/tracker.rs:54-100 | New state and status of a vote, with the three refusals in order |
| Finality.FinalityTracker.CheckQuorum | core/blockchain/src/finality/tracker.rs:130-148 | The quorum answer for a block, false when unknown or without total power |
| Finality.FinalityTracker.FinalizeBlock | core/blockchain/src/finality/tracker.rs:154-173 | Finalizes any known, not yet finalized block and raises the finalized height |
| Finality.FinalityTracker.Prune | core/blockchain/src/finality/tracker.rs:184-186 | Keeps exactly the blocks at or above the height |
| Finality.RunKeepsTracker | core/blockchain/src/finality/tracker.rs:54-100 | While callers follow one power table: voters of a block are distinct and its vote power is the sum of their powers; a justified block has a quorum |
| Finality.QuorumIsShare | core/blockchain/src/finality/tracker.rs:138-148 | Despite the floor, a quorum is the stated share of the total power, and short of saturation conversely |
| Finality.VoteOkIff | core/blockchain/src/finality/tracker.rs:54-80 | A vote is accepted if and only if the block is known and not final and the voter has not voted for it; a refusal changes nothing |
| Finality.ErrorsMean | core/blockchain/src/finality/tracker.rs:54-163 | Which refusal a vote or a finalization meets |
| Finality.VoteJustifiesIff | core/blockchain/src/finality/tracker.rs:82-99 | While callers follow the table: an accepted vote on a pending block justifies it if and only if the total is set and the voters, this one included, hold the stated share |
| Finality.FinalizedQuorateIff | core/blockchain/src/finality/tracker.rs:154-173 | For every run and total: all finalized blocks of all states on the way have a quorum if and only if every accepted `finalize` met a block with a quorum |
| Finality.JustifiedSuffices | core/blockchain/src/finality/tracker.rs:150-163 | A caller that follows the power table and finalizes only justified blocks, as documented, meets a quorum every time |
| Finality.QuorumIntersection | core/blockchain/src/finality/tracker.rs:54-173 | Any two blocks justified or finalized at any two moments of a run share voters of power P with 10000 * P >= (2 * quorum_bps - 10000) * total; finalized ones count when the finalizations of the run met a quorum |
| Finality.TwoThirdsIntersection | core/blockchain/src/finality/tracker.rs:20-173 | At 6667 basis points those shared voters hold more than a third of the power |
| Finality.JustifiedBySmallMinority | core/blockchain/src/finality/tracker.rs:123-125 | Without the table the claim fails: concrete run with a block justified by a hundredth of the power |
| Finality.StepIsMonotone | core/blockchain/src/finality/tracker.rs:35-186 | No operation lowers the finalized height, and a block present before and after it keeps its height and its votes, does not fall in status, and is unchanged once finalized |
| Finality.FinalizedUntilPruned | core/blockchain/src/finality/tracker.rs:35-186 | Over every run: a finalized block stays, unchanged, through all later states if and only if no pruning above its height happens |
| Finality.PrunedThenPending | core/blockchain/src/finality/tracker.rs:35-48 | A pruned finalized block that is registered again is pending and without votes |
| Finality.FinalizedWithoutVote | core/blockchain/src/finality/tracker.rs:154-173 | A block registered and finalized at once is finalized without any vote |
| Finality.FinalizedHeightIsHighest | core/blockchain/src/finality/tracker.rs:164-170 | In every run no finalized block lies above the finalized height and none is orphaned |
| Finality.FinalizedHead | core/blockchain/src/finality/tracker.rs:154-173 | In every run the finalized height and hash are those of the block finalized last among the highest, pruned or not; 0 and the zero hash before |
| Staking.StakingVault.StakeInitial | core/blockchain/src/staking.rs:93-119 | New vault and outcome of an initial stake |
| Staking.StakingVault.AddToStake | core/blockchain/src/staking.rs:124-137 | New vault and outcome of adding stake |
| Staking.StakingVault.BeginUnstaking | core/blockchain/src/staking.rs:151-178 | New vault and outcome: the amount leaves the active stake and waits one period |
| Staking.StakingVault.Complete | core/blockchain/src/staking.rs:184-205 | The in-place filter keeps exactly the locked chunks and returns the sum of the mature ones |
| Staking.StakingVault.SlashStake | core/blockchain/src/staking.rs:219-243 | New vault and amount of a capped, saturating slash |
| Staking.StepKeepsVault | core/blockchain/src/staking.rs:93-243 | The running total is the sum of the active stakes after every operation |
| Staking.SlashBounds | core/blockchain/src/staking.rs:231-237 | A slash takes at most half the stake |
| Staking.AcceptedIff | core/blockchain/src/staking.rs:93-243 | Which operations are accepted (minimum first stake, existing stake, at most the active amount); refusals change nothing and other addresses are untouched |
| Staking.StakeMoves | core/blockchain/src/staking.rs:93-178 | What staking, adding and unstaking leave: the amount, the height, and a chunk due one period later |
| Staking.SlashMeans | core/blockchain/src/staking.rs:219-243 | A slash takes the requested rate, at most half, of the active stake, rounded down, from that stake and the total only |
| Staking.SlashLeavesStake | core/blockchain/src/staking.rs:219-243 | Slashing never empties a positive stake |
| Staking.StakeConservation | core/blockchain/src/staking.rs:93-243 | Per address over every run: deposits = active + waiting + released + slashed |
| Staking.ReleasedOnlyAfterPeriod | core/blockchain/src/staking.rs:151-205 | What calls up to a height release was requested a full unbonding period before it, heights in any order |
| Staking.ReleasedInTime | core/blockchain/src/staking.rs:151-205 | Once unbonding is completed at the greatest height so far, exactly everything requested a full period before it has been released |
| ProofOfStake.WeightNeverTruncates | core/blockchain/src/pos/types.rs:58-66 | For u128 stakes the cast to u64 is exact, and weight is positive from the minimum stake on |
| ProofOfStake.NewRecord | core/blockchain/src/pos/types.rs:41-66 | A new record weighs one per full 32 000 tokens of its stake, rounded down, with clean counters |
| ProofOfStake.EngineVault | core/blockchain/src/staking.rs:80-82 | The vault of a new engine asks for 32 000 tokens and unbonds over 100 blocks |
| ProofOfStake.PoSConsensus.RegisterValidator | core/blockchain/src/pos/engine.rs:50-68 | Refusals, vault and list after registering; keeps the cache in agreement |
| ProofOfStake.PoSConsensus.RemoveValidator | core/blockchain/src/pos/engine.rs:74-89 | Removes exactly the named validator by swapping and clears it as proposer; keeps the cache in agreement |
| ProofOfStake.RemovalKeepsOthers | core/blockchain/src/pos/engine.rs:81-81 | Swap-removal drops one record, keeps all others and their distinctness |
| ProofOfStake.PoSConsensus.TotalVotingPower | core/blockchain/src/pos/engine.rs:195-197 | The loop returns the sum of all weights |
| ProofOfStake.PoSConsensus.SelectProposer | core/blockchain/src/pos/engine.rs:107-132 | Errors exactly without enough validators or power; otherwise the validator whose cumulative interval holds the slot; the fallback is unreachable |
| ProofOfStake.PoSConsensus.SlashValidator | core/blockchain/src/pos/engine.rs:216-233 | Slashes the vault and resynchronises the one cached record; keeps the cache in agreement |
| ProofOfStake.ChosenUnique | core/blockchain/src/pos/engine.rs:117-125 | Only one validator has the slot in its cumulative interval |
| ProofOfStake.ProposerAtHeight | core/blockchain/src/pos/engine.rs:107-125 | A height proposes the validator into whose stretch of the cumulative weights it falls modulo the voting power |
| ProofOfStake.ProposerFairness | core/blockchain/src/pos/engine.rs:107-132 | From any height, one cycle of total-power blocks proposes every validator exactly its weight in times |
| ProofOfStake.ChosenHasWeight | core/blockchain/src/pos/engine.rs:120-125 | A validator without weight is never proposed |
| ProofOfStake.DirectVaultOperation | core/blockchain/src/pos/engine.rs:9-12 | A vault operation made past the engine leaves the cache in agreement if and only if it moves no registered active stake |
| ProofOfStake.CumulativeWeightFits | core/blockchain/src/pos/engine.rs:117-126 | While the total stake fits in u128 the cumulative weight stays within u64 |
| AgentWallets.AgentWalletFactory.CreateWallet | core/blockchain/src/agent_wallet/factory.rs:38-84 | One wallet per agent, with all three tables updated |
| AgentWallets.AgentWalletFactory.DepositTo | core/blockchain/src/agent_wallet/factory.rs:114-133 | Only the addressed wallet changes, as its step says; closed wallets refuse |
| AgentWallets.AgentWalletFactory.SpendFrom | core/blockchain/src/agent_wallet/factory.rs:141-240 | Only the addressed wallet changes, as its step says: resets happen even when the spend is then refused |
| AgentWallets.SpendOkIff | core/blockchain/src/agent_wallet/factory.rs:141-232 | A spend succeeds if and only if the wallet is active, the subnet allowed, the balance sufficient, and every limit admits the amount on top of what still counts in its window |
| AgentWallets.SpendErrors | core/blockchain/src/agent_wallet/factory.rs:148-232 | Which refusal a spend meets: amount, status, subnet, period, day, month, balance, in that order |
| AgentWallets.SpendCounts | core/blockchain/src/agent_wallet/factory.rs:171-240 | A success debits the amount once and counts it in every window (one of length 0 counts nothing once reached); a refusal may reset windows but neither forgets nor adds anything that still counts |
| AgentWallets.AgentWalletFactory.FreezeWallet | core/blockchain/src/agent_wallet/factory.rs:243-262 | Owner-only freeze of an open wallet |
| AgentWallets.AgentWalletFactory.UnfreezeWallet | core/blockchain/src/agent_wallet/factory.rs:265-284 | Owner-only return to active |
| AgentWallets.AgentWalletFactory.CloseWallet | core/blockchain/src/agent_wallet/factory.rs:287-308 | Owner-only close that pays out the balance |
| AgentWallets.AgentWalletFactory.SetSpendingLimit | core/blockchain/src/agent_wallet/factory.rs:311-331 | Owner-only change of the period limit |
| AgentWallets.AgentWalletFactory.ResetPeriodOf | core/blockchain/src/agent_wallet/factory.rs:336-343 | Resets an expired period only |
| AgentWallets.OwnerOperations | core/blockchain/src/agent_wallet/factory.rs:243-331 | Freeze, unfreeze, close and limit change: only by the owner of a wallet that is not closed, with their effect; refused otherwise with nothing changed |
| AgentWallets.DepositMeans | core/blockchain/src/agent_wallet/factory.rs:114-133 | A deposit is accepted if and only if positive and the wallet is not closed, and raises the balance only |
| AgentWallets.ResetMeans | core/blockchain/src/agent_wallet/factory.rs:336-343 | A period reset forgets a period that has run out, at the caller's height, and changes nothing else |
| AgentWallets.NewWalletMeans | core/blockchain/src/agent_wallet/factory.rs:49-75 | A new wallet is active and empty, with the given limits and period, nothing counted |
| SlidingWindows.RefreshGuarded | core/blockchain/src/agent_wallet/factory.rs:171-187 | A lazy reset preserves the window invariant |
| SlidingWindows.UseGuarded | core/blockchain/src/agent_wallet/factory.rs:189-238 | An accepted use preserves it |
| SlidingWindows.GuardedBound | core/blockchain/src/agent_wallet/factory.rs:171-238 | Under the invariant no interval of the window length holds more than twice the limit |
| AgentWallets.SlidingSpendBound | core/blockchain/src/agent_wallet/factory.rs:141-240 | For the period, daily and monthly limit, over every chronological run: successful spends in any stretch of the window length total at most twice the limit |
| AgentWallets.FixedWindowBound | core/blockchain/src/agent_wallet/factory.rs:141-240 | For all three limits: the spends that fall into any one window ever open, by the end of the whole run, total at most the limit |
| AgentWallets.TwiceTheDailyLimit | core/blockchain/src/agent_wallet/factory.rs:177-213 | The factor is attained: twice the daily limit within two consecutive blocks |
| AgentWallets.WalletConservation | core/blockchain/src/agent_wallet/factory.rs:114-308 | Over every run deposits = balance + spent + paid out on closing; a closed wallet stays closed and empty |
| SettlementBridges.SettlementBridge.IngestEvent | core/blockchain/src/settlement_bridge/bridge.rs:71-102 | New state and reply of an ingestion, guards in order |
| SettlementBridges.SettlementBridge.RememberId | core/blockchain/src/settlement_bridge/bridge.rs:89-98 | The eviction loop leaves the last ids that fit the window, and the id set equal to them |
| SettlementBridges.SettlementBridge.CreateBatchAt | core/blockchain/src/settlement_bridge/bridge.rs:132-172 | New state and records of draining the queue |
| SettlementBridges.SettlementBridge.SettleEvents | core/blockchain/src/settlement_bridge/bridge.rs:144-166 | The loop splits the events into records and failures, with total and count |
| SettlementBridges.SettlementBridge.FlushQueue | core/blockchain/src/settlement_bridge/bridge.rs:202-204 | Returns and empties the queue |
| SettlementBridges.SettlementBridge.RetryFailedEvents | core/blockchain/src/settlement_bridge/bridge.rs:209-221 | Moves all failed events back into the queue in order |
| SettlementBridges.DedupIsLastAccepted | core/blockchain/src/settlement_bridge/bridge.rs:84-98 | In every run the dedup queue is exactly the last accepted ids up to the window, duplicate-free, and the set is its set |
| SettlementBridges.DuplicateIff | core/blockchain/src/settlement_bridge/bridge.rs:71-87 | A well-formed event is refused as a duplicate if and only if its id is among those |
| SettlementBridges.IngestIff | core/blockchain/src/settlement_bridge/bridge.rs:71-102 | An event is let in if and only if it has an amount, two parties, and an id not among the last accepted ones |
| SettlementBridges.BridgeConservation | core/blockchain/src/settlement_bridge/bridge.rs:71-221 | In every run each accepted event is, as a multiset, in exactly one of queue, settled, flushed; nothing ever fails |
| SettlementBridges.QueueInOrder | core/blockchain/src/settlement_bridge/bridge.rs:71-221 | In every run the queue is the tail of the accepted events, in the order of acceptance |
| SettlementBridges.RepliesMean | core/blockchain/src/settlement_bridge/bridge.rs:132-204 | A flush returns the whole queue in order, a retry the failed events as it queues them again; batches are counted and their height kept |
| SettlementBridges.BatchSplits | core/blockchain/src/settlement_bridge/bridge.rs:144-167 | Of any queue a batch records exactly the valid events and keeps every other one as failed |
| SettlementBridges.CountersMatch | core/blockchain/src/settlement_bridge/bridge.rs:156-159 | Processed count and (saturated) total are those of the settled events |
| SettlementBridges.BatchMatchesQueue | core/blockchain/src/settlement_bridge/bridge.rs:132-172 | A batch returns one record per queued event, in order, with its parties, amount, service and fee and the height and time of the batch |
| SettlementBridges.IdsRepeatAcrossBatches | core/blockchain/src/settlement_bridge/bridge.rs:132-172 | Because every batch counts from 0, records of two batches of one run share an id if and only if height, time, position, parties and amount agree |
| SettlementBridges.IdsDoRepeat | core/blockchain/src/settlement_bridge/bridge.rs:132-172 | Two events differing in their own id only, settled in two batches at one height and time, leave two records under one id |
| Settlement.SettlementEngine.Settle | core/blockchain/src/settlement/engine.rs:75-145 | New engine state and outcome of one settlement; keeps the books |
| Settlement.SettlementEngine.BatchSettle | core/blockchain/src/settlement/engine.rs:151-164 | One outcome per request, in order, as if settled one by one; keeps the books |
| Settlement.SplitAlwaysConservesIff | core/blockchain/src/settlement/engine.rs:57-64 | Fee plus net is the gross for every amount if and only if the rate is at most 10 000 basis points |
| Settlement.SettleMeans | core/blockchain/src/settlement/engine.rs:57-144 | A settlement is accepted if and only if the amount is positive and the parties differ; its record carries the call, the rate on the amount as fee and the rest as net |
| Settlement.BooksAlwaysAgree | core/blockchain/src/settlement/engine.rs:75-144 | After every run, each call with its own height and time: both indices list exactly the matching records in order, and the totals are the saturated sums |
| Settlement.IdsDistinct | core/blockchain/src/settlement/engine.rs:92-110 | No two records of one engine share an id, a burn or a mint transaction |
| Settlement.RecordsAreAccepted | core/blockchain/src/settlement/engine.rs:75-144 | The records are the accepted calls, one for one and in order, each with the parties, amount, height and time it was called with |
| Settlement.FeeRounding | core/blockchain/src/settlement/engine.rs:57-141 | After every run whose totals and fee products stay below the u128 maximum: 10000*total_fees <= fee_bps*total_settled, which with at least one record is less than 10000*(total_fees + records) |
| RecordIndices.PositionsExact | core/blockchain/src/settlement/engine.rs:130-138 | An index lists exactly the matching positions, ascending |
| CreditBilling.CreditBillingEngine.CheckRateLimit | core/blockchain/src/credit_billing/engine.rs:232-250 | The rate-limit answer for a user and service |
| CreditBilling.CreditBillingEngine.ChargeCredits | core/blockchain/src/credit_billing/engine.rs:92-170 | New engine state and outcome of a charge, refusals in order |
| CreditBilling.ChargeOkIff | core/blockchain/src/credit_billing/engine.rs:92-123 | A charge is accepted if and only if positive, covered, for an enabled service, and the first of its period or below the limit |
| CreditBilling.ChargeCounts | core/blockchain/src/credit_billing/engine.rs:121-167 | An accepted charge counts once, for its own user and service only, and is recorded as made |
| CreditBilling.EnabledMeans | core/blockchain/src/credit_billing/engine.rs:60-84 | Enabling and disabling concern one service only |
| CreditBilling.BooksAlwaysAgree | core/blockchain/src/credit_billing/engine.rs:130-167 | In every run both indices are exact and ordered, user and service totals and counts are those of the records |
| CreditBilling.SlidingRateBound | core/blockchain/src/credit_billing/engine.rs:110-128 | Over any period-length stretch at most twice the limit (of at least one) is accepted per user and service |
| CreditBilling.FixedRateBound | core/blockchain/src/credit_billing/engine.rs:110-128 | Into any one window ever open fall, by the end of the whole run, at most as many accepted charges as the limit (of at least one) |
| CreditBilling.ZeroLimitAcceptsOne | core/blockchain/src/credit_billing/engine.rs:239-249 | With limit 0 the first request of a period is accepted all the same |
| Channels.ChannelManager.OpenNew | core/blockchain/src/channel/manager.rs:52-99 | New state and id of an opening; the id table is written without a lookup |
| Channels.ChannelManager.UpdateChannel | core/blockchain/src/channel/manager.rs:107-132 | New state and outcome of an off-chain update |
| Channels.ChannelManager.CloseChannel | core/blockchain/src/channel/manager.rs:138-160 | New state and outcome of a close |
| Channels.ChannelManager.DisputeChannel | core/blockchain/src/channel/manager.rs:168-204 | New state and outcome of a dispute |
| Channels.ChannelManager.FinalizeChannel | core/blockchain/src/channel/manager.rs:212-239 | New state and payout of a finalization |
| Channels.ChannelManager.TopUpChannel | core/blockchain/src/channel/manager.rs:242-263 | New state and outcome of a top-up |
| Channels.ChannelManager.ExpireChannel | core/blockchain/src/channel/manager.rs:303-320 | New state and answer of the expiry check |
| Channels.ActIsSafe | core/blockchain/src/channel/manager.rs:107-320 | Every action keeps the two balances adding up to the deposit, raises the nonce with each accepted state, and moves status only down a ranking |
| Channels.ActOkIff | core/blockchain/src/channel/manager.rs:107-320 | When each action is accepted: status, party, nonce, balances, amount, and expiry height |
| Channels.ActErrors | core/blockchain/src/channel/manager.rs:107-263 | Which refusal an action meets |
| Channels.PayoutIff | core/blockchain/src/channel/manager.rs:212-239 | A payout happens if and only if the channel is closing or disputed and the period is over, and hands out the whole deposit |
| Channels.PeriodCountsFrom | core/blockchain/src/channel/manager.rs:138-239 | The dispute period counts from the close, and anew from a dispute |
| Channels.OpeningMeans | core/blockchain/src/channel/manager.rs:52-99 | An opening between different parties with a deposit creates an open channel with the manager's periods and nothing for the receiver |
| Channels.IndicesListOpenings | core/blockchain/src/channel/manager.rs:88-96 | In every run both indices list exactly the channels opened, in order |
| Channels.CanPayIff | core/blockchain/src/channel/manager.rs:107-320 | Some course of actions still pays a channel out if and only if it is open, closing or disputed: expiry locks the deposit for good |
| Channels.RunKeepsBalanced | core/blockchain/src/channel/manager.rs:52-320 | Balances add up to a positive deposit in every reachable channel |
| Channels.SettledForGood | core/blockchain/src/channel/manager.rs:212-320 | A closed or expired channel keeps that status and refuses every finalization unless its id is opened anew |
| Channels.PayoutIsFunding | core/blockchain/src/channel/manager.rs:212-263 | Finalizing pays exactly the opening deposit plus all accepted top-ups |
| Channels.PayoutIsDue | core/blockchain/src/channel/manager.rs:107-263 | Over every run each party is paid its own share: the receiver what the last accepted state gives it (or nothing), the sender its part of that state (or the opening deposit) and all later top-ups |
| Channels.ChannelConservation | core/blockchain/src/channel/manager.rs:52-263 | Over every run: received = held + paid out + overwritten by a reused id |
| Channels.OverwrittenIff | core/blockchain/src/channel/manager.rs:65-88 | Something is overwritten if and only if some opening reuses the id of a channel that was never paid out |
| Channels.SecondOpeningOverwrites | core/blockchain/src/channel/manager.rs:65-88 | Concrete second opening that overwrites a deposit |
| Treasury.ProtocolTreasury.CollectFeeOn | core/blockchain/src/treasury/treasury.rs:69-80 | New state and fee; refused when the fee rounds to zero |
| Treasury.ProtocolTreasury.DepositInto | core/blockchain/src/treasury/treasury.rs:85-92 | New state of a deposit |
| Treasury.ProtocolTreasury.DistributeFixed | core/blockchain/src/treasury/treasury.rs:104-135 | New state and record of a fixed distribution, refusals in order |
| Treasury.ProtocolTreasury.DistributeByStake | core/blockchain/src/treasury/treasury.rs:144-198 | New state and record of a proportional distribution, refusals in order, for products that fit (PayeesFitIff) |
| Treasury.ProtocolTreasury.DistributeSplit | core/blockchain/src/treasury/treasury.rs:205-271 | New state and both records of a split; the balance keeps the retained share and less than one unit per staker more, for products that fit (PayeesFitIff, WrappedWithinBalance) |
| Treasury.ProtocolTreasury.SetRate | core/blockchain/src/treasury/treasury.rs:307-316 | Admin-only rate change up to 10 000 basis points |
| Treasury.AcceptedIff | core/blockchain/src/treasury/treasury.rs:69-316 | When each operation is accepted: caller, amounts, balance, a fee of at least one unit, some staker due at least one unit |
| Treasury.NewTreasuryMeans | core/blockchain/src/treasury/treasury.rs:38-49 | A new treasury is empty and gives stakers four tenths |
| Treasury.ErrorsMean | core/blockchain/src/treasury/treasury.rs:104-316 | Which refusal an operation meets: a stranger, no recipients, a rate or an amount beyond the bound |
| Treasury.AmountsMean | core/blockchain/src/treasury/treasury.rs:69-254 | A fee is the rate on the amount and the staker part the share of the balance, each rounded down; fixed distributions are recorded as given |
| Treasury.PayeesMean | core/blockchain/src/treasury/treasury.rs:164-185 | The payees are exactly the stakers due at least one unit, in order, each under its own address with its own proportion rounded down |
| Treasury.PayoutDust | core/blockchain/src/treasury/treasury.rs:164-185 | Payouts stay within the amount split and fall short by less than one unit per listed staker, for products that fit (PayeesFitIff) |
| Treasury.RecordedWithinBalance | core/blockchain/src/treasury/treasury.rs:125-188 | No accepted distribution can underflow the balance |
| Sequences.WrappedShareIff | core/blockchain/src/treasury/treasury.rs:171-171 | A share computed with a product taken modulo 2^128 is never more than the exact one, and equal to it if and only if the product fits |
| Treasury.PayeesFitIff | core/blockchain/src/treasury/treasury.rs:168-185 | Compiled without overflow checks a proportional payout is the exact one if and only if total times the largest stake fits in u128; wrapped or not, it never exceeds the total |
| Treasury.WrappedWithinBalance | core/blockchain/src/treasury/treasury.rs:168-254 | So neither path can underflow the balance even where its products wrap |
| Treasury.OrdinaryAmountsWrap | core/blockchain/src/treasury/treasury.rs:171-171 | Concrete overflow: 10^18 split over one stake of 3.2 * 10^22 pays 420547169743263 |
| Treasury.StepKeepsFunds | core/blockchain/src/treasury/treasury.rs:69-316 | Balance = collected - distributed, and distributed is the sum over the recorded distributions, after every operation |
| Treasury.SplitRetains | core/blockchain/src/treasury/treasury.rs:221-254 | The split path leaves at least the retained share, and for products that fit less than one unit per staker more |
| Treasury.FeeWithinGrossIff | core/blockchain/src/treasury/treasury.rs:58-60 | A fee stays within the gross amount, for every amount, if and only if the rate is at most 10 000 basis points |
| Treasury.RateStaysWithin | core/blockchain/src/treasury/treasury.rs:307-316 | No operation moves a rate within that bound past it, over every run |
| Treasury.ConstructorTakesAnyRate | core/blockchain/src/treasury/treasury.rs:35-49 | The constructor checks nothing: a treasury made with a rate of 10 001 collects 10 001 from 10 000 |
| Vesting.VestedMonotone | core/blockchain/src/genesis/vesting.rs:27-53 | Vested amount never falls with height and never exceeds the grant, for all orderings of cliff, start and end |
| Vesting.VestedMeans | core/blockchain/src/genesis/vesting.rs:27-53 | Nothing before the cliff, everything from the end (or from the cliff if nothing lies between), and the elapsed fraction, rounded down, in between |
| Vesting.VestingSchedule.Release | core/blockchain/src/genesis/vesting.rs:63-67 | Pays what has vested beyond what was released |
| Vesting.ReleasesTelescope | core/blockchain/src/genesis/vesting.rs:56-67 | Any sequence of releases pays in total the vested amount at the greatest height called |

## Left out

- Overflow of plain `+` and `*` beyond the conditions named above: the theorems speak of runs in which no plain operation exceeds its type.
- ReserveTracksArea: does not cover the sigmoid, where no bound by supply holds beyond the plateaus (SigmoidNeverRefusesIff, SigmoidReserveBoundedIff, FlatRun), nor quadratic supplies at which a product saturates.
- CostBetweenPrices: its lower half does not cover the quadratic curve, which charges its price per million tokens (QuadraticBetween).
- QuorumIntersection: needs every vote and total to follow one power table of at most u128 total, because the tracker takes both on trust (JustifiedBySmallMinority).
- EmissionCap: needs the weights to add up within 32 bits and the totals within u128, as the sums are plain (WeightSumWraps).
- SlidingSpendBound: needs the wallet's lifetime spend to fit in u128, since a saturated counter no longer counts.
- FeeRounding: needs the totals and each fee product to stay below the u128 maximum, since a saturated one has no relation to the rate.
- PayeesFitIff: needs the stakes to add up within u128, as the sum itself is plain.
- ReleasesTelescope: needs the grant to fit in u128, as its type says.
- Direct writes to public fields (a wallet's subnet list or suspension through `get_wallet_mut`, the treasury's share fields, the bridge's queue) are not operations of the model; the treasury's staker share is fixed at 4000 basis points.
- Queries that only clone, filter or count (`get_*`, `is_*`, `should_batch`, summaries, epoch boundaries, block counters, `validate_block`).
- The uniqueness that a real digest gives only with overwhelming probability, signatures, and the vote's round and height, which the tracker stores and never reads.
- The f64 compute market, transaction execution, governance tallies, batch settlement and the reflective token contract: their natural conservation laws do not hold of the code.
- The remaining ledgers (subnet staking, accounts, credits, incentives, deposits, fee routing, reputation, registries), which would only repeat easier forms of the ones here.
- RPC, networking, storage, metrics, configuration, the wallet crate, contracts and all TypeScript services: input and output.
