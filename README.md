# Near-Intersect contract core in Dafny

This project models three parts of the Near-Intersect NEAR smart contract and
proves properties about them.

- **The token law validator** (`Law`, `law.dfy`). A `LawV1Schema` describes a
  token launch: a fixed supply, an optional burn cap, time lock, airdrop,
  vesting schedule, liquidity bootstrap, and a list of percentage
  distributions. `validate` accepts a law only if every module is well formed
  and the tokens it reserves fit inside the fixed supply. The model has the
  validator as an imperative method (`Law.Validate`, with the uniqueness loop
  `Law.AssertUniqueAccounts`). It is proved equal to a pure function,
  `Law.Validation`, that keeps the order of the checks. A declarative characterisation then says exactly which laws
  are accepted (`Law.ValidationSucceedsIff`) and which error each rejected law
  reports.
- **The Outpace-Inflation Module** (`OutpaceInflation`, `oim.dfy`). This is a
  rebalancer that moves basis points from a safety weight to a growth weight
  while the real-return score is negative. It is gated by an oracle-freshness
  check and a cooldown. The class `OutpaceInflation.Oim` keeps the source's
  two lazily stored fields (`config`, `state`) as `Option` fields. Its methods
  `Init`, `PostInflationIndex` and `OimRebalance` update them in place. Each
  method is proved to produce the state given by a pure transition function.
  Lemmas over those functions prove that in every reachable state the
  weights sum to at most 100% and growth stays within its cap.
- **The token factory** (`Registry`, `factory.dfy`). This is a registry from
  upper-cased symbols to token accounts. `Registry.Factory` holds the registry
  as a `map` field. The lemmas prove that a symbol is registered at most once
  and that an entry, once written, never changes.

`base.dfy` (`Base`) holds the shared vocabulary: `Option`, `Result`, the Rust
integer widths as subset types, and the checked, saturating and casting
arithmetic the source uses.

Aborts (`assert!`, `expect`, overflow panics) become the `Err` side of a
`Result`. Each panic message has its own error constructor. The block clock
(`env::block_timestamp`, in seconds) and the calling account
(`env::predecessor_account_id`) are method parameters `now` and `caller`.
Emitted events are returned as values.

### Where the code departs from the intent its comments state (the model follows the code)

- The comment on `clamp_weights_to_caps` (oim.rs:253) says the weights never
  exceed their caps. But `init` sets the safety weight to 10000 whatever
  `safety_cap_bps` says (`OutpaceInflation.DefaultSafetyMayExceedCap`). The
  safety weight then stays above its cap until the first successful
  rebalance that passes the freshness gate. Neither a stale-oracle freeze nor
  a score-overflow abort clamps. In Oracle mode, a rebalance directly after
  `init`, before any index is posted, freezes
  (`OutpaceInflation.OracleFirstRebalanceKeepsDefaultSafety`). The invariant
  proved for every reachable state is therefore "liquidity 0, growth within
  its cap and the sum within 10000".
- The comment on `value_bps` (oim.rs:37) calls it an inflation figure in basis
  points. The code casts the `u32` with `as i32`, so an index above
  `i32::MAX` reads as a negative inflation, that is, as deflation
  (`OutpaceInflation.WrappedIndexReadsAsDeflation`).
- The comment on `rebalance_cooldown_sec` (oim.rs:65) calls it a cooldown
  between rebalances. The code skips the gate when `last_rebalance_at_sec` is
  0. So a rebalance at block time 0 leaves the gate open for the next call.

## Model

| member | source | states |
|---|---|---|
| Law.AssertUniqueAccounts | contract/src/law.rs:183-188 | the scan succeeds if and only if no account appears twice in the list |
| Law.ReserveAirdrop | contract/src/law.rs:124-133 | an airdrop needs a non-empty duplicate-free recipient list and a positive amount, and adds amount × recipients to the reserve without overflowing u128 (agrees with `Law.AirdropStep`) |
| Law.ReserveVesting | contract/src/law.rs:135-146 | a vesting schedule needs non-empty distinct recipients, a positive amount, a positive duration and cliff ≤ duration, and adds amount × recipients to the reserve |
| Law.ReserveBootstrap | contract/src/law.rs:148-154 | a liquidity bootstrap needs a positive amount, which is added to the reserve |
| Law.SumDistributionBps | contract/src/law.rs:156-164 | the loop over distributions rejects empty or duplicate recipient lists and shares above 10000 bps, and otherwise returns the checked sum of the shares |
| Law.Validate | contract/src/law.rs:107-180 | the validator returns exactly the verdict of `Law.Validation`, error included |
| Law.DistributionsStepSums | contract/src/law.rs:157-164 | the distributions loop succeeds if and only if every distribution is well formed, and then returns start + the sum of all shares |
| Law.ExplicitReservedSums | contract/src/law.rs:122-154 | the explicit modules reserve succeeds if and only if they are well formed and their total fits u128, and then it reserves exactly that total |
| Law.ValidationSucceedsIff | contract/src/law.rs:122-179 | a law is accepted if and only if every module is well formed, supply × total bps fits u128, and airdrop + vesting + bootstrap + supply × bps / 10000 ≤ supply |
| Law.EarlyChecksReportedFirst | contract/src/law.rs:108-119 | a zero supply, a burn cap above supply, or a zero time lock is reported before any other module is looked at |
| Law.BadRecipientListRejected | contract/src/law.rs:125-160 | an empty or repeated recipient list in any module makes the law fail |
| Law.ModuleFieldChecksEnforced | contract/src/law.rs:128-150 | a zero airdrop amount, a zero vesting amount or duration, a cliff after the duration, or a zero bootstrap amount makes the law fail |
| Law.PercentageBoundsEnforced | contract/src/law.rs:161-165 | a share above 10000 bps, or shares summing above 10000 bps, makes the law fail |
| Law.ExceedingSupplyRejected | contract/src/law.rs:176-179 | a well-formed law whose reserve exceeds the supply fails with the allocations-exceed-supply error |
| Law.PctProductOverflowRejected | contract/src/law.rs:168-171 | a well-formed law whose supply × bps overflows u128 fails with the pct-reserved-overflow error |
| Law.ProductOverflowsWhileShareFits | contract/src/law.rs:168-173 | the overflow check is on the product before division, so it rejects a law whose reserved share would itself fit (supply u128::MAX, 2 bps) |
| Law.FullDistributionReservesWholeSupply | contract/src/law.rs:157-179 | with no other module, distributions summing to exactly 10000 bps reserve the whole supply, and the law is accepted when supply × 10000 fits u128 |
| Law.SameAccountInTwoModulesAccepted | contract/src/law.rs:183-188 | uniqueness is checked per list, so one account may appear in both the airdrop and the vesting list |
| Law.MixedModulesScenario | contract/src/law.rs:122-179 | a law with an airdrop of 100 to 3 accounts, vesting of 200 to 2 accounts and distributions totalling 5000 bps reserves 500700 of 1000000 and is accepted |
| Law.OverTenThousandBpsScenario | contract/src/law.rs:165 | shares of 6000 and 4001 bps are rejected with the percentage-sum error |
| OutpaceInflation.ConfigCheck | contract/src/oim.rs:179-191 | a configuration passes if and only if its oracle account and hurdle match its mode and all three caps are at most 10000, and a cap error is reported only once the mode fields agree |
| OutpaceInflation.AssertOracle | contract/src/oim.rs:224-229 | posting is authorised if and only if the module is initialised in Oracle mode with an oracle account equal to the caller |
| OutpaceInflation.AssertFreshOracle | contract/src/oim.rs:231-239 | the oracle counts as fresh if and only if the mode is FixedHurdle, or an index exists and now ≤ its posting time + the maximum age |
| OutpaceInflation.EnforceCooldown | contract/src/oim.rs:241-250 | a rebalance may proceed if and only if none happened yet (stamp 0), the cooldown is 0, or the cooldown has elapsed since the last stamp |
| OutpaceInflation.RealReturnScore | contract/src/oim.rs:351-363 | the score is 0 − inflation − the minimum real return, where inflation is the cast index value (Oracle) or the hurdle (FixedHurdle), and an i32 overflow is an abort |
| OutpaceInflation.RebalanceDelta | contract/src/oim.rs:383-388 | the shift is the largest amount bounded by the step (default 100), the safety weight and the growth headroom |
| OutpaceInflation.Clamped | contract/src/oim.rs:252-274 | each weight ends within its cap, growth and liquidity become the minimum of weight and cap, safety never grows, and no other field changes |
| OutpaceInflation.ClampWeightsToCaps | contract/src/oim.rs:252-274 | the in-place clamping computes exactly the clamped state |
| OutpaceInflation.ClampedWithinScale | contract/src/oim.rs:264-273 | with caps at most 10000 and capped growth plus liquidity within 10000, the clamped weights sum to at most 10000 and safety is cut no further than its cap and that bound require |
| OutpaceInflation.ClampNeedsCapsInRange | contract/src/oim.rs:264-273 | trimming only the safety weight is not enough without valid caps: caps of u32::MAX let the saturating u32 sum under-report, and the clamped weights sum to 10001 |
| OutpaceInflation.Oim.constructor | contract/src/oim.rs:168-173 | a new module has neither configuration nor state |
| OutpaceInflation.Oim.IsInitialized | contract/src/oim.rs:208-210 | the module is initialised if and only if both the configuration and the state are stored |
| OutpaceInflation.Oim.GetConfig | contract/src/oim.rs:212-214 | reading the configuration fails with not-initialised before init and otherwise returns the stored one |
| OutpaceInflation.Oim.GetState | contract/src/oim.rs:216-218 | reading the state fails with not-initialised before init and otherwise returns the stored one |
| OutpaceInflation.Oim.Init | contract/src/oim.rs:177-206 | init succeeds exactly when the configuration passes its checks, then stores it with the default state (safety 10000, others 0, status Healthy); on failure nothing changes |
| OutpaceInflation.Oim.PostInflationIndex | contract/src/oim.rs:290-314 | posting needs an initialised Oracle-mode module and the oracle as caller, and then only replaces the last index with one stamped now; the configuration never changes |
| OutpaceInflation.Oim.OimRebalance | contract/src/oim.rs:319-411 | a rebalance produces exactly the state and events of `OutpaceInflation.RebalanceTransition`: cooldown gate, stale-oracle freeze, scoring, safety-to-growth shift, clamp and timestamp |
| OutpaceInflation.StaleFreezeKeepsInvariant | contract/src/oim.rs:327-341 | a stale-oracle freeze keeps the weight invariant |
| OutpaceInflation.OracleFirstRebalanceKeepsDefaultSafety | contract/src/oim.rs:319-341 | in Oracle mode, a rebalance directly after `init`, before any index is posted, freezes without clamping, so the default safety weight of 10000 stays above a 5000 cap and the stamp stays 0 |
| OutpaceInflation.DefaultSafetyMayExceedCap | contract/src/oim.rs:193-205 | a valid configuration with safety cap 5000 gets a default safety weight of 10000, above that cap, while the weight invariant holds |
| OutpaceInflation.RebalancePreservesInvariant | contract/src/oim.rs:378-403 | a successful rebalance of a state within the invariant leaves a state within it |
| OutpaceInflation.CooldownGate | contract/src/oim.rs:241-250 | with a nonzero stamp, a rebalance before the cooldown has elapsed fails with cooldown-active; with stamp 0 the only possible failure is a score overflow |
| OutpaceInflation.StaleOracleFreezes | contract/src/oim.rs:327-341 | in Oracle mode with a missing or stale index, a rebalance sets status OracleStale and score 0, and keeps the weights and the rebalance stamp |
| OutpaceInflation.StaleOracleScenario | contract/src/oim.rs:327-341 | maximum age 100, index posted at 0, rebalance at 150: frozen as OracleStale with score 0, and the call succeeds |
| OutpaceInflation.FreshRebalanceScoresAndStamps | contract/src/oim.rs:351-410 | a rebalance that passes both gates records the score, sets status Behind exactly when the score is negative, stamps now, and emits a status event and a rebalanced event |
| OutpaceInflation.InflationIsIndexOrHurdle | contract/src/oim.rs:351-358 | inflation is the cast index value in Oracle mode (0 with no index) and the hurdle in FixedHurdle mode |
| OutpaceInflation.WrappedIndexReadsAsDeflation | contract/src/oim.rs:351-367 | an index of u32::MAX is cast to −1, so the score comes out as +1 and the status Healthy |
| OutpaceInflation.RebalanceMovesDelta | contract/src/oim.rs:380-399 | from a state within the invariant, growth gains exactly the shift (the delta when Behind, 0 when Healthy), safety loses it and is then cut to its cap, liquidity stays 0, and the rebalanced event reports the shift |
| OutpaceInflation.SecondRebalanceWithinCooldownFails | contract/src/oim.rs:241-402 | after a successful rebalance at a nonzero time, a second one before the cooldown has passed fails |
| OutpaceInflation.PostIndexOnlySetsLastIndex | contract/src/oim.rs:290-305 | a post succeeds if and only if the module is initialised in Oracle mode with the caller as oracle, and then changes only the last index, to the posted id, period and value stamped now |
| OutpaceInflation.EveryReachableStateKeepsWeightInvariant | contract/src/oim.rs:177-411 | after any sequence of init, post and rebalance calls from a new module, the stored weights have liquidity 0, growth within its cap and a sum within 10000 |
| Registry.CreateTokenIn | contract/src/factory.rs:17-29 | registration fails if and only if the upper-cased symbol is present, and otherwise adds exactly that key with the given account and keeps every other entry |
| Registry.Factory.constructor | contract/src/factory.rs:11-15 | a new factory has an empty registry |
| Registry.Factory.GetToken | contract/src/factory.rs:31-34 | a lookup finds an account if and only if the upper-cased symbol is registered, and returns the account stored for it |
| Registry.Factory.CreateToken | contract/src/factory.rs:17-29 | the method fails with symbol-used, leaving the registry unchanged, if and only if the upper-cased symbol is present; otherwise a later lookup returns the new account |
| Registry.NewFactoryIsEmpty | contract/src/factory.rs:11-15 | no symbol is found in a new factory |
| Registry.RegisteredEntryNeverOverwritten | contract/src/factory.rs:21-27 | whatever registrations follow, a registered symbol keeps its account |
| Registry.SymbolsEqualUpToCaseCollide | contract/src/factory.rs:17-24 | once a symbol is registered, any symbol with the same upper-cased form is refused with symbol-used, whichever account claims it |
| Registry.LowerAndUpperCaseShareEntry | contract/src/factory.rs:18 | "usdc" and "USDC" both map to the registry key "USDC" |

## Left out

- NEAR storage plumbing is not modelled. `LazyOption`, `LookupMap`, Borsh
  serialisation and storage prefixes become plain `Option` and `map` fields.
- `now_sec` (block timestamp divided by 10^9) and the caller's account id are
  parameters. The clock and the runtime environment are not modelled.
- `emit` (JSON logging of events) is not modelled. Events are returned as
  values in the order they are emitted.
- Panic messages are not kept as strings. Each message has its own error
  constructor, and a panic is the `Err` result of the call.
- Registry.ToUppercase: upper-cases ASCII letters only. Rust's
  `String::to_uppercase` applies full Unicode case mapping, which can also
  change a string's length.
- `measurement_window_days` is carried in the configuration, but no code path
  reads it.
- The commented-out integration example at the end of `oim.rs` is not code and
  is not modelled.
- OutpaceInflation.RealReturnScore: i32 subtraction overflow is modelled as a
  panic, as in a build with overflow checks. A release build without them
  would wrap.
- Law.ReserveAirdrop: recipient counts are taken as exact. The `usize` to
  `u128` cast never truncates on NEAR's 32-bit wasm target.
- Concurrency is not modelled. Calls on the contract are serialised by the
  NEAR runtime.
