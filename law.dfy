/** The LAW v1 allocation-policy schema and its validator: a fixed supply plus
    optional modules whose reservations, explicit and basis-point, must together
    stay within the supply, computed in overflow-checked u128 arithmetic. */
module Law {
  import opened Base

  datatype FixedSupply = FixedSupply(amount: U128)
  datatype BurnCap = BurnCap(cap: U128)
  datatype TimeLock = TimeLock(duration: U128)
  /** A uniform `amount` to every recipient. */
  datatype Airdrop = Airdrop(recipients: seq<AccountId>, amount: U128)
  /** A uniform `amount` to every recipient, vesting over `duration` after `cliff`. */
  datatype VestingSchedule = VestingSchedule(cliff: U128, duration: U128, recipients: seq<AccountId>, amount: U128)
  datatype LiquidityBootstrap = LiquidityBootstrap(pair: AccountId, amount: U128)
  /** `percentage` is in basis points of the fixed supply. */
  datatype PercentageDistribution = PercentageDistribution(percentage: U128, recipients: seq<AccountId>)

  datatype LawV1Schema = LawV1Schema(
    fixed_supply: FixedSupply,
    burn_cap: Option<BurnCap>,
    time_lock: Option<TimeLock>,
    airdrop: Option<Airdrop>,
    vesting_schedule: Option<VestingSchedule>,
    liquidity_bootstrap: Option<LiquidityBootstrap>,
    percentage_distributions: seq<PercentageDistribution>)

  /** One constructor per assertion of the validator, in the order they are checked. */
  datatype LawError =
    | SupplyNotPositive
    | BurnCapExceedsSupply
    | TimeLockDurationNotPositive
    | AirdropRecipientsEmpty
    | AirdropRecipientsNotUnique
    | AirdropAmountNotPositive
    | AirdropTotalOverflow
    | VestingRecipientsEmpty
    | VestingRecipientsNotUnique
    | VestingAmountNotPositive
    | VestingDurationNotPositive
    | VestingCliffExceedsDuration
    | VestingTotalOverflow
    | LiquidityAmountNotPositive
    | DistributionRecipientsEmpty
    | DistributionRecipientsNotUnique
    | DistributionPercentageTooLarge
    | BpsSumOverflow
    | PercentageSumExceeded
    | PctReservedOverflow
    | ReservedOverflow
    | AllocationsExceedSupply

  const BPS_DENOMINATOR: nat := 10_000

  predicate Distinct(accts: seq<AccountId>) {
    forall i, j :: 0 <= i < j < |accts| ==> accts[i] != accts[j]
  }

  // ---------------------------------------------------------------------------
  // The validator as a specification: each module's step, in source order
  // ---------------------------------------------------------------------------

  function AddReserved(reserved: U128, amount: U128): Result<U128, LawError> {
    match CheckedAdd(reserved, amount)
    case None => Err(ReservedOverflow)
    case Some(sum) => Ok(sum)
  }

  function AirdropStep(airdrop: Option<Airdrop>, reserved: U128): Result<U128, LawError> {
    match airdrop
    case None => Ok(reserved)
    case Some(ad) =>
      if |ad.recipients| == 0 then Err(AirdropRecipientsEmpty)
      else if !Distinct(ad.recipients) then Err(AirdropRecipientsNotUnique)
      else if ad.amount == 0 then Err(AirdropAmountNotPositive)
      else match CheckedMul(ad.amount, |ad.recipients|)
        case None => Err(AirdropTotalOverflow)
        case Some(total) => AddReserved(reserved, total)
  }

  function VestingStep(vesting: Option<VestingSchedule>, reserved: U128): Result<U128, LawError> {
    match vesting
    case None => Ok(reserved)
    case Some(vs) =>
      if |vs.recipients| == 0 then Err(VestingRecipientsEmpty)
      else if !Distinct(vs.recipients) then Err(VestingRecipientsNotUnique)
      else if vs.amount == 0 then Err(VestingAmountNotPositive)
      else if vs.duration == 0 then Err(VestingDurationNotPositive)
      else if vs.cliff > vs.duration then Err(VestingCliffExceedsDuration)
      else match CheckedMul(vs.amount, |vs.recipients|)
        case None => Err(VestingTotalOverflow)
        case Some(total) => AddReserved(reserved, total)
  }

  function BootstrapStep(bootstrap: Option<LiquidityBootstrap>, reserved: U128): Result<U128, LawError> {
    match bootstrap
    case None => Ok(reserved)
    case Some(lb) =>
      if lb.amount == 0 then Err(LiquidityAmountNotPositive)
      else AddReserved(reserved, lb.amount)
  }

  /** The loop over the percentage distributions, from `sumBps` onwards. */
  function DistributionsStep(ds: seq<PercentageDistribution>, sumBps: U128): Result<U128, LawError>
    decreases |ds|
  {
    if |ds| == 0 then Ok(sumBps)
    else if |ds[0].recipients| == 0 then Err(DistributionRecipientsEmpty)
    else if !Distinct(ds[0].recipients) then Err(DistributionRecipientsNotUnique)
    else if ds[0].percentage > BPS_DENOMINATOR then Err(DistributionPercentageTooLarge)
    else match CheckedAdd(sumBps, ds[0].percentage)
      case None => Err(BpsSumOverflow)
      case Some(next) => DistributionsStep(ds[1..], next)
  }

  /** The explicit reservations of modules 4 to 6, accumulated from zero. */
  function ExplicitReserved(law: LawV1Schema): Result<U128, LawError> {
    var afterAirdrop :- AirdropStep(law.airdrop, 0);
    var afterVesting :- VestingStep(law.vesting_schedule, afterAirdrop);
    BootstrapStep(law.liquidity_bootstrap, afterVesting)
  }

  /** The final checks, once the explicit reservations and the basis points are summed. */
  function Conclude(supply: U128, explicitReserved: U128, sumBps: U128): Result<(), LawError> {
    if sumBps > BPS_DENOMINATOR then Err(PercentageSumExceeded)
    else match CheckedMul(supply, sumBps)
      case None => Err(PctReservedOverflow)
      case Some(product) =>
        var reserved :- AddReserved(explicitReserved, product / BPS_DENOMINATOR);
        if reserved > supply then Err(AllocationsExceedSupply) else Ok(())
  }

  /** What `LawV1Schema::validate` reports: the first failed check, or success. */
  function Validation(law: LawV1Schema): Result<(), LawError> {
    var supply := law.fixed_supply.amount;
    if supply == 0 then Err(SupplyNotPositive)
    else if law.burn_cap.Some? && law.burn_cap.value.cap > supply then Err(BurnCapExceedsSupply)
    else if law.time_lock.Some? && law.time_lock.value.duration == 0 then Err(TimeLockDurationNotPositive)
    else
      var explicitReserved :- ExplicitReserved(law);
      var sumBps :- DistributionsStep(law.percentage_distributions, 0);
      Conclude(supply, explicitReserved, sumBps)
  }

  // ---------------------------------------------------------------------------
  // What a successful validation means, stated without the order of the checks
  // ---------------------------------------------------------------------------

  predicate RecipientsOk(recipients: seq<AccountId>) {
    |recipients| > 0 && Distinct(recipients)
  }

  predicate DistributionOk(pd: PercentageDistribution) {
    RecipientsOk(pd.recipients) && pd.percentage <= BPS_DENOMINATOR
  }

  function SumBps(ds: seq<PercentageDistribution>): nat
    decreases |ds|
  {
    if |ds| == 0 then 0 else ds[0].percentage + SumBps(ds[1..])
  }

  /** Every check of modules 4 to 6 that does not involve arithmetic. */
  predicate ExplicitModulesOk(law: LawV1Schema) {
    (law.airdrop.Some? ==>
      RecipientsOk(law.airdrop.value.recipients) && law.airdrop.value.amount > 0)
    && (law.vesting_schedule.Some? ==>
      var vs := law.vesting_schedule.value;
      RecipientsOk(vs.recipients) && vs.amount > 0 && vs.duration > 0 && vs.cliff <= vs.duration)
    && (law.liquidity_bootstrap.Some? ==> law.liquidity_bootstrap.value.amount > 0)
  }

  /** Every check of the validator that does not involve arithmetic overflow or
      the total reservation. */
  predicate StructurallyValid(law: LawV1Schema) {
    var supply := law.fixed_supply.amount;
    var ds := law.percentage_distributions;
    supply > 0
    && (law.burn_cap.Some? ==> law.burn_cap.value.cap <= supply)
    && (law.time_lock.Some? ==> law.time_lock.value.duration > 0)
    && ExplicitModulesOk(law)
    && (forall i :: 0 <= i < |ds| ==> DistributionOk(ds[i]))
    && SumBps(ds) <= BPS_DENOMINATOR
  }

  function AirdropTotal(law: LawV1Schema): nat {
    if law.airdrop.Some? then law.airdrop.value.amount * |law.airdrop.value.recipients| else 0
  }

  function VestingTotal(law: LawV1Schema): nat {
    if law.vesting_schedule.Some? then law.vesting_schedule.value.amount * |law.vesting_schedule.value.recipients| else 0
  }

  function BootstrapAmount(law: LawV1Schema): nat {
    if law.liquidity_bootstrap.Some? then law.liquidity_bootstrap.value.amount else 0
  }

  function ExplicitTotal(law: LawV1Schema): nat {
    AirdropTotal(law) + VestingTotal(law) + BootstrapAmount(law)
  }

  /** The basis-point share of the supply, rounded down. */
  function PctReserved(law: LawV1Schema): nat {
    law.fixed_supply.amount * SumBps(law.percentage_distributions) / BPS_DENOMINATOR
  }

  function TotalReserved(law: LawV1Schema): nat {
    ExplicitTotal(law) + PctReserved(law)
  }

  /** The loop over the distributions succeeds exactly when every entry passes and
      no partial sum leaves u128; it then yields the plain sum. */
  lemma {:induction false} DistributionsStepSums(ds: seq<PercentageDistribution>, start: U128)
    ensures DistributionsStep(ds, start).Ok? <==>
      (forall i :: 0 <= i < |ds| ==> DistributionOk(ds[i])) && start + SumBps(ds) <= U128_MAX
    ensures DistributionsStep(ds, start).Ok? ==> DistributionsStep(ds, start).value == start + SumBps(ds)
    decreases |ds|
  {
    if |ds| > 0 {
      var rest := ds[1..];
      assert forall i :: 0 <= i < |rest| ==> rest[i] == ds[i + 1];
      if DistributionOk(ds[0]) && start + ds[0].percentage <= U128_MAX {
        DistributionsStepSums(rest, start + ds[0].percentage);
        if forall i :: 0 <= i < |rest| ==> DistributionOk(rest[i]) {
          forall i | 0 <= i < |ds| ensures DistributionOk(ds[i]) {
            if i > 0 { assert ds[i] == rest[i - 1]; }
          }
        }
      }
    }
  }

  /** Modules 4 to 6 succeed exactly when their checks pass and the sum of their
      reservations fits in u128, which they then yield. */
  lemma ExplicitReservedSums(law: LawV1Schema)
    ensures ExplicitReserved(law).Ok? <==> ExplicitModulesOk(law) && ExplicitTotal(law) <= U128_MAX
    ensures ExplicitReserved(law).Ok? ==> ExplicitReserved(law).value == ExplicitTotal(law)
  {
  }

  /** `validate` succeeds exactly when every structural check passes, the product
      `supply * sum_bps` fits in u128, and the explicit reservations plus the
      rounded-down basis-point share do not exceed the supply. */
  lemma ValidationSucceedsIff(law: LawV1Schema)
    ensures Validation(law).Ok? <==>
      StructurallyValid(law)
      && law.fixed_supply.amount * SumBps(law.percentage_distributions) <= U128_MAX
      && TotalReserved(law) <= law.fixed_supply.amount
  {
    ExplicitReservedSums(law);
    DistributionsStepSums(law.percentage_distributions, 0);
  }

  // ---------------------------------------------------------------------------
  // Consequences: which policies fail, which succeed, and with what error
  // ---------------------------------------------------------------------------

  /** The supply, burn-cap and time-lock checks come first, in that order. */
  lemma EarlyChecksReportedFirst(law: LawV1Schema)
    ensures law.fixed_supply.amount == 0 ==> Validation(law) == Err(SupplyNotPositive)
    ensures law.fixed_supply.amount > 0 && law.burn_cap.Some? && law.burn_cap.value.cap > law.fixed_supply.amount
      ==> Validation(law) == Err(BurnCapExceedsSupply)
    ensures law.fixed_supply.amount > 0 && (law.burn_cap.Some? ==> law.burn_cap.value.cap <= law.fixed_supply.amount)
      && law.time_lock.Some? && law.time_lock.value.duration == 0
      ==> Validation(law) == Err(TimeLockDurationNotPositive)
  {
  }

  /** A present recipient list that is empty or names an account twice makes the
      policy fail, whatever its other fields say. */
  lemma BadRecipientListRejected(law: LawV1Schema)
    requires
      || (law.airdrop.Some? && !RecipientsOk(law.airdrop.value.recipients))
      || (law.vesting_schedule.Some? && !RecipientsOk(law.vesting_schedule.value.recipients))
      || (exists i :: 0 <= i < |law.percentage_distributions| && !RecipientsOk(law.percentage_distributions[i].recipients))
    ensures Validation(law).Err?
  {
    ValidationSucceedsIff(law);
  }

  /** A zero airdrop, vesting or bootstrap amount, a zero vesting duration, or a
      cliff past the vesting duration makes the policy fail. */
  lemma ModuleFieldChecksEnforced(law: LawV1Schema)
    requires
      || (law.airdrop.Some? && law.airdrop.value.amount == 0)
      || (law.vesting_schedule.Some? && law.vesting_schedule.value.amount == 0)
      || (law.vesting_schedule.Some? && law.vesting_schedule.value.duration == 0)
      || (law.vesting_schedule.Some? && law.vesting_schedule.value.cliff > law.vesting_schedule.value.duration)
      || (law.liquidity_bootstrap.Some? && law.liquidity_bootstrap.value.amount == 0)
    ensures Validation(law).Err?
  {
    ValidationSucceedsIff(law);
  }

  /** A single percentage above 10000 bps, or a total above 10000 bps, fails. */
  lemma PercentageBoundsEnforced(law: LawV1Schema)
    requires
      || (exists i :: 0 <= i < |law.percentage_distributions| && law.percentage_distributions[i].percentage > BPS_DENOMINATOR)
      || SumBps(law.percentage_distributions) > BPS_DENOMINATOR
    ensures Validation(law).Err?
  {
    ValidationSucceedsIff(law);
  }

  /** A structurally valid policy whose reservations exceed the supply, without
      overflowing on the way, fails with exactly that error. */
  lemma ExceedingSupplyRejected(law: LawV1Schema)
    requires StructurallyValid(law)
    requires law.fixed_supply.amount * SumBps(law.percentage_distributions) <= U128_MAX
    requires law.fixed_supply.amount < TotalReserved(law) <= U128_MAX
    ensures Validation(law) == Err(AllocationsExceedSupply)
  {
    ExplicitReservedSums(law);
    DistributionsStepSums(law.percentage_distributions, 0);
  }

  /** `supply * sum_bps` is formed before the division, so it is rejected when it
      leaves u128 even though the rounded-down share itself would fit. */
  lemma PctProductOverflowRejected(law: LawV1Schema)
    requires StructurallyValid(law)
    requires ExplicitTotal(law) <= U128_MAX
    requires law.fixed_supply.amount * SumBps(law.percentage_distributions) > U128_MAX
    ensures Validation(law) == Err(PctReservedOverflow)
  {
    ExplicitReservedSums(law);
    DistributionsStepSums(law.percentage_distributions, 0);
  }

  /** The largest supply with a 2 bps distribution: its share fits, its product does not. */
  lemma ProductOverflowsWhileShareFits()
    ensures
      var law := LawV1Schema(FixedSupply(U128_MAX), None, None, None, None, None,
                             [PercentageDistribution(2, ["alice.near"])]);
      TotalReserved(law) <= law.fixed_supply.amount && Validation(law) == Err(PctReservedOverflow)
  {
    var law := LawV1Schema(FixedSupply(U128_MAX), None, None, None, None, None,
                           [PercentageDistribution(2, ["alice.near"])]);
    assert SumBps(law.percentage_distributions) == 2;
    PctProductOverflowRejected(law);
  }

  /** Distributions summing to exactly 10000 bps, with no other module, reserve
      the whole supply and validate, as long as `supply * 10000` fits in u128. */
  lemma FullDistributionReservesWholeSupply(law: LawV1Schema)
    requires law.burn_cap.None? && law.time_lock.None?
    requires law.airdrop.None? && law.vesting_schedule.None? && law.liquidity_bootstrap.None?
    requires forall i :: 0 <= i < |law.percentage_distributions| ==> RecipientsOk(law.percentage_distributions[i].recipients)
    requires SumBps(law.percentage_distributions) == BPS_DENOMINATOR
    requires 0 < law.fixed_supply.amount && law.fixed_supply.amount * BPS_DENOMINATOR <= U128_MAX
    ensures TotalReserved(law) == law.fixed_supply.amount
    ensures Validation(law) == Ok(())
  {
    var ds := law.percentage_distributions;
    forall i | 0 <= i < |ds| ensures ds[i].percentage <= BPS_DENOMINATOR {
      SumBpsBoundsEach(ds, i);
    }
    ValidationSucceedsIff(law);
  }

  /** Each percentage is at most the sum of all of them. */
  lemma {:induction false} SumBpsBoundsEach(ds: seq<PercentageDistribution>, i: nat)
    requires i < |ds|
    ensures ds[i].percentage <= SumBps(ds)
    decreases |ds|
  {
    if i > 0 {
      SumBpsBoundsEach(ds[1..], i - 1);
    }
  }

  /** Uniqueness is per list: the same account may appear in two modules. */
  lemma SameAccountInTwoModulesAccepted()
    ensures Validation(LawV1Schema(FixedSupply(1000), None, None,
      Some(Airdrop(["alice.near"], 10)),
      Some(VestingSchedule(0, 10, ["alice.near"], 10)),
      None, [])) == Ok(())
  {
  }

  /** Supply 1,000,000; airdrop 100 to 3 accounts; vesting 200 to 2 accounts;
      distributions of 5000 bps: 500,700 reserved, and the policy validates. */
  lemma MixedModulesScenario()
    ensures
      var law := LawV1Schema(FixedSupply(1_000_000), None, None,
        Some(Airdrop(["a.near", "b.near", "c.near"], 100)),
        Some(VestingSchedule(10, 100, ["d.near", "e.near"], 200)),
        None,
        [PercentageDistribution(3000, ["f.near"]), PercentageDistribution(2000, ["g.near"])]);
      TotalReserved(law) == 500_700 && Validation(law) == Ok(())
  {
  }

  /** The same supply with distributions totalling 10001 bps fails on the sum,
      before the supply check is reached. */
  lemma OverTenThousandBpsScenario()
    ensures
      Validation(LawV1Schema(FixedSupply(1_000_000), None, None, None, None, None,
        [PercentageDistribution(6000, ["f.near"]), PercentageDistribution(4001, ["g.near"])]))
      == Err(PercentageSumExceeded)
  {
  }

  // ---------------------------------------------------------------------------
  // The validator as written: mutable `reserved` and `sum_bps`, a loop, a set
  // ---------------------------------------------------------------------------

  /** `assert_unique_accounts`: inserts each account into a set and fails on the
      first insertion that finds it already there. */
  method AssertUniqueAccounts(accts: seq<AccountId>) returns (unique: bool)
    ensures unique <==> Distinct(accts)
  {
    var seen: set<AccountId> := {};
    var i := 0;
    while i < |accts|
      invariant 0 <= i <= |accts|
      invariant seen == set k | 0 <= k < i :: accts[k]
      invariant Distinct(accts[..i])
    {
      if accts[i] in seen {
        return false;
      }
      seen := seen + {accts[i]};
      i := i + 1;
    }
    assert accts[..i] == accts;
    return true;
  }

  /** Module 4 of `validate`: adds `amount * |recipients|` to `reserved`. */
  method ReserveAirdrop(airdrop: Option<Airdrop>, reserved: U128) returns (r: Result<U128, LawError>)
    ensures r == AirdropStep(airdrop, reserved)
  {
    if airdrop.None? {
      return Ok(reserved);
    }
    var ad := airdrop.value;
    if |ad.recipients| == 0 {
      return Err(AirdropRecipientsEmpty);
    }
    var unique := AssertUniqueAccounts(ad.recipients);
    if !unique {
      return Err(AirdropRecipientsNotUnique);
    }
    if ad.amount == 0 {
      return Err(AirdropAmountNotPositive);
    }
    var total := CheckedMul(ad.amount, |ad.recipients|);
    if total.None? {
      return Err(AirdropTotalOverflow);
    }
    var sum := CheckedAdd(reserved, total.value);
    if sum.None? {
      return Err(ReservedOverflow);
    }
    return Ok(sum.value);
  }

  /** Module 5 of `validate`: adds `amount * |recipients|` to `reserved`. */
  method ReserveVesting(vesting: Option<VestingSchedule>, reserved: U128) returns (r: Result<U128, LawError>)
    ensures r == VestingStep(vesting, reserved)
  {
    if vesting.None? {
      return Ok(reserved);
    }
    var vs := vesting.value;
    if |vs.recipients| == 0 {
      return Err(VestingRecipientsEmpty);
    }
    var unique := AssertUniqueAccounts(vs.recipients);
    if !unique {
      return Err(VestingRecipientsNotUnique);
    }
    if vs.amount == 0 {
      return Err(VestingAmountNotPositive);
    }
    if vs.duration == 0 {
      return Err(VestingDurationNotPositive);
    }
    if vs.cliff > vs.duration {
      return Err(VestingCliffExceedsDuration);
    }
    var total := CheckedMul(vs.amount, |vs.recipients|);
    if total.None? {
      return Err(VestingTotalOverflow);
    }
    var sum := CheckedAdd(reserved, total.value);
    if sum.None? {
      return Err(ReservedOverflow);
    }
    return Ok(sum.value);
  }

  /** Module 6 of `validate`: adds the bootstrap amount to `reserved`. */
  method ReserveBootstrap(bootstrap: Option<LiquidityBootstrap>, reserved: U128) returns (r: Result<U128, LawError>)
    ensures r == BootstrapStep(bootstrap, reserved)
  {
    if bootstrap.None? {
      return Ok(reserved);
    }
    if bootstrap.value.amount == 0 {
      return Err(LiquidityAmountNotPositive);
    }
    var sum := CheckedAdd(reserved, bootstrap.value.amount);
    if sum.None? {
      return Err(ReservedOverflow);
    }
    return Ok(sum.value);
  }

  /** Module 7 of `validate`: the loop that sums the basis points. */
  method SumDistributionBps(ds: seq<PercentageDistribution>) returns (r: Result<U128, LawError>)
    ensures r == DistributionsStep(ds, 0)
  {
    var sumBps: U128 := 0;
    var i := 0;
    while i < |ds|
      invariant 0 <= i <= |ds|
      invariant DistributionsStep(ds, 0) == DistributionsStep(ds[i..], sumBps)
    {
      var pd := ds[i];
      if |pd.recipients| == 0 {
        return Err(DistributionRecipientsEmpty);
      }
      var unique := AssertUniqueAccounts(pd.recipients);
      if !unique {
        return Err(DistributionRecipientsNotUnique);
      }
      if pd.percentage > BPS_DENOMINATOR {
        return Err(DistributionPercentageTooLarge);
      }
      var next := CheckedAdd(sumBps, pd.percentage);
      if next.None? {
        return Err(BpsSumOverflow);
      }
      assert ds[i..][1..] == ds[i + 1..];
      sumBps := next.value;
      i := i + 1;
    }
    assert ds[i..] == [];
    return Ok(sumBps);
  }

  /** `LawV1Schema::validate`. It reads the policy and changes nothing. */
  method Validate(law: LawV1Schema) returns (r: Result<(), LawError>)
    ensures r == Validation(law)
  {
    var supply := law.fixed_supply.amount;
    if supply == 0 {
      return Err(SupplyNotPositive);
    }
    if law.burn_cap.Some? && law.burn_cap.value.cap > supply {
      return Err(BurnCapExceedsSupply);
    }
    if law.time_lock.Some? && law.time_lock.value.duration == 0 {
      return Err(TimeLockDurationNotPositive);
    }

    var reserved: U128 := 0;
    reserved :- ReserveAirdrop(law.airdrop, reserved);
    reserved :- ReserveVesting(law.vesting_schedule, reserved);
    reserved :- ReserveBootstrap(law.liquidity_bootstrap, reserved);
    assert ExplicitReserved(law) == Ok(reserved);

    var sumBps :- SumDistributionBps(law.percentage_distributions);
    if sumBps > BPS_DENOMINATOR {
      return Err(PercentageSumExceeded);
    }

    var product := CheckedMul(supply, sumBps);
    if product.None? {
      return Err(PctReservedOverflow);
    }
    var pctReserved := product.value / BPS_DENOMINATOR;
    reserved :- AddReserved(reserved, pctReserved);

    if reserved > supply {
      return Err(AllocationsExceedSupply);
    }
    return Ok(());
  }
}
