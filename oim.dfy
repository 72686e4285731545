/** The OutpaceInflation module (OIM): a configuration and a state record that
    together drive three treasury intent weights (safety, growth, liquidity)
    from an inflation index or a fixed hurdle, behind an oracle-authorisation
    gate, a cooldown gate and an oracle-freshness gate. No funds move. */
module OutpaceInflation {
  import opened Base

  /** 10000 basis points are 100%. */
  const BPS_SCALE: int := 10_000
  /** The reweighting step when the configuration sets none. */
  const DEFAULT_STEP_BPS: U32 := 100
  /** Placeholder for the vault's growth, fixed at zero. */
  const VAULT_GROWTH_BPS: I32 := 0

  datatype InflationIndex = InflationIndex(index_id: string, period: string, value_bps: U32, posted_at_sec: U64)

  datatype OimMode = Oracle | FixedHurdle

  datatype OimConfig = OimConfig(
    mode: OimMode,
    oracle_account: Option<AccountId>,
    fixed_hurdle_bps_annual: Option<U32>,
    measurement_window_days: U16,
    min_real_return_bps: I32,
    rebalance_cooldown_sec: U32,
    max_oracle_age_sec: U32,
    safety_cap_bps: U32,
    growth_cap_bps: U32,
    liquidity_cap_bps: U32,
    max_rebalance_step_bps: Option<U32>)

  datatype OimStatus = Healthy | Behind | OracleStale

  datatype OimState = OimState(
    last_index: Option<InflationIndex>,
    last_rebalance_at_sec: U64,
    real_return_score_bps: I32,
    status: OimStatus,
    safety_weight_bps: U32,
    growth_weight_bps: U32,
    liquidity_weight_bps: U32)

  /** The log entries the module emits, as values. */
  datatype OimEvent =
    | IndexPosted(index_id: string, period: string, value_bps: U32, posted_at_sec: U64)
    | StatusUpdated(status: OimStatus, real_return_score_bps: I32, at_sec: U64)
    | Rebalanced(from_safety_bps: U32, to_growth_bps: U32, at_sec: U64)

  /** One constructor per panic of the module. */
  datatype OimError =
    | OracleAccountRequired
    | HurdleMustBeAbsent
    | HurdleRequired
    | OracleAccountMustBeAbsent
    | InvalidSafetyCap
    | InvalidGrowthCap
    | InvalidLiquidityCap
    | NotInitialized
    | NotOracleMode
    | OracleAccountMissing
    | OracleAuthFailed
    | CooldownActive
    | ScoreOverflow

  // ---------------------------------------------------------------------------
  // Configuration
  // ---------------------------------------------------------------------------

  /** Exactly the field its mode needs is present: the oracle account in Oracle
      mode, the fixed hurdle in FixedHurdle mode. */
  predicate ModeFieldsAgree(cfg: OimConfig) {
    cfg.oracle_account.Some? == (cfg.mode == Oracle)
    && cfg.fixed_hurdle_bps_annual.Some? == (cfg.mode == FixedHurdle)
  }

  predicate CapsInRange(cfg: OimConfig) {
    cfg.safety_cap_bps <= BPS_SCALE && cfg.growth_cap_bps <= BPS_SCALE && cfg.liquidity_cap_bps <= BPS_SCALE
  }

  predicate ConfigValid(cfg: OimConfig) {
    ModeFieldsAgree(cfg) && CapsInRange(cfg)
  }

  /** The checks of `init`, in source order. */
  function ConfigCheck(cfg: OimConfig): (r: Result<(), OimError>)
    ensures r.Ok? <==> ConfigValid(cfg)
    ensures r.Err? && r.error in {InvalidSafetyCap, InvalidGrowthCap, InvalidLiquidityCap} ==> ModeFieldsAgree(cfg)
  {
    var modeCheck :=
      match cfg.mode
      case Oracle =>
        if cfg.oracle_account.None? then Err(OracleAccountRequired)
        else if cfg.fixed_hurdle_bps_annual.Some? then Err(HurdleMustBeAbsent)
        else Ok(())
      case FixedHurdle =>
        if cfg.fixed_hurdle_bps_annual.None? then Err(HurdleRequired)
        else if cfg.oracle_account.Some? then Err(OracleAccountMustBeAbsent)
        else Ok(());
    if modeCheck.Err? then modeCheck
    else if cfg.safety_cap_bps > BPS_SCALE then Err(InvalidSafetyCap)
    else if cfg.growth_cap_bps > BPS_SCALE then Err(InvalidGrowthCap)
    else if cfg.liquidity_cap_bps > BPS_SCALE then Err(InvalidLiquidityCap)
    else Ok(())
  }

  /** The state `init` writes: fully in safety, no index, never rebalanced. */
  function DefaultState(): OimState {
    OimState(None, 0, 0, Healthy, 10_000, 0, 0)
  }

  // ---------------------------------------------------------------------------
  // Gates
  // ---------------------------------------------------------------------------

  /** `assert_oracle`: the caller may post an index only in Oracle mode and only
      as the configured oracle account. */
  function AssertOracle(config: Option<OimConfig>, caller: AccountId): (r: Result<(), OimError>)
    ensures r.Ok? <==> config.Some? && config.value.mode == Oracle && config.value.oracle_account == Some(caller)
  {
    match config
    case None => Err(NotInitialized)
    case Some(cfg) =>
      if cfg.mode != Oracle then Err(NotOracleMode)
      else match cfg.oracle_account
        case None => Err(OracleAccountMissing)
        case Some(oracle) => if caller != oracle then Err(OracleAuthFailed) else Ok(())
  }

  /** `assert_fresh_oracle`: an index posted no more than `max_oracle_age_sec`
      before `now` (a later timestamp has age 0); FixedHurdle mode is always fresh. */
  function AssertFreshOracle(st: OimState, cfg: OimConfig, now: U64): (isFresh: bool)
    ensures isFresh <==>
      cfg.mode.FixedHurdle?
      || (st.last_index.Some? && now <= st.last_index.value.posted_at_sec + cfg.max_oracle_age_sec)
  {
    if cfg.mode != Oracle then true
    else match st.last_index
      case None => false
      case Some(ix) => SaturatingSub(now, ix.posted_at_sec) <= cfg.max_oracle_age_sec
  }

  /** `enforce_cooldown`: a timestamp of 0 means never rebalanced; otherwise the
      saturating time since the last rebalance must reach the cooldown. A clock
      behind the last rebalance counts as 0 elapsed, which only a zero cooldown
      lets through. */
  function EnforceCooldown(st: OimState, cfg: OimConfig, now: U64): (r: Result<(), OimError>)
    ensures r.Ok? <==>
      st.last_rebalance_at_sec == 0
      || cfg.rebalance_cooldown_sec == 0
      || st.last_rebalance_at_sec + cfg.rebalance_cooldown_sec <= now
    ensures r.Err? ==> r.error == CooldownActive
  {
    if st.last_rebalance_at_sec == 0 then Ok(())
    else if SaturatingSub(now, st.last_rebalance_at_sec) >= cfg.rebalance_cooldown_sec then Ok(())
    else Err(CooldownActive)
  }

  // ---------------------------------------------------------------------------
  // Score, reweighting, clamping
  // ---------------------------------------------------------------------------

  /** The inflation term as an i32: the index value (cast from u32) in Oracle
      mode, 0 without an index, the hurdle (cast from u32) in FixedHurdle mode. */
  function InflationBps(cfg: OimConfig, st: OimState): I32 {
    match cfg.mode
    case Oracle => if st.last_index.Some? then U32AsI32(st.last_index.value.value_bps) else 0
    case FixedHurdle => U32AsI32(cfg.fixed_hurdle_bps_annual.GetOr(0))
  }

  /** `vault_growth_bps - inflation_bps - min_real_return_bps` in i32; either
      subtraction leaving i32 aborts the call. */
  function RealReturnScore(cfg: OimConfig, st: OimState): (r: Result<I32, OimError>)
    ensures r.Ok? <==>
      I32_MIN <= VAULT_GROWTH_BPS - InflationBps(cfg, st) <= I32_MAX
      && I32_MIN <= VAULT_GROWTH_BPS - InflationBps(cfg, st) - cfg.min_real_return_bps <= I32_MAX
    ensures r.Ok? ==> r.value == VAULT_GROWTH_BPS - InflationBps(cfg, st) - cfg.min_real_return_bps
    ensures r.Err? ==> r.error == ScoreOverflow
  {
    match CheckedSubI32(VAULT_GROWTH_BPS, InflationBps(cfg, st))
    case None => Err(ScoreOverflow)
    case Some(difference) =>
      match CheckedSubI32(difference, cfg.min_real_return_bps)
      case None => Err(ScoreOverflow)
      case Some(score) => Ok(score)
  }

  function StepLimit(cfg: OimConfig): U32 {
    cfg.max_rebalance_step_bps.GetOr(DEFAULT_STEP_BPS)
  }

  /** The weight moved from safety to growth by one rebalance while Behind: as
      much as the step, the safety weight and the growth headroom all allow. */
  function RebalanceDelta(st: OimState, cfg: OimConfig): (delta: U32)
    ensures delta <= StepLimit(cfg) && delta <= st.safety_weight_bps
    ensures delta > 0 ==> st.growth_weight_bps + delta <= cfg.growth_cap_bps
    ensures delta == StepLimit(cfg) || delta == st.safety_weight_bps || st.growth_weight_bps + delta >= cfg.growth_cap_bps
  {
    Min(Min(StepLimit(cfg), st.safety_weight_bps), SaturatingSub(cfg.growth_cap_bps, st.growth_weight_bps))
  }

  /** `clamp_weights_to_caps` on a value: every weight is cut to its cap, then
      safety alone absorbs any excess of the (saturating u32) sum over 10000. */
  function Clamped(st: OimState, cfg: OimConfig): (r: OimState)
    ensures r == st.(safety_weight_bps := r.safety_weight_bps,
                     growth_weight_bps := r.growth_weight_bps,
                     liquidity_weight_bps := r.liquidity_weight_bps)
    ensures r.safety_weight_bps <= cfg.safety_cap_bps
    ensures r.growth_weight_bps <= cfg.growth_cap_bps
    ensures r.liquidity_weight_bps <= cfg.liquidity_cap_bps
    ensures r.growth_weight_bps == Min(st.growth_weight_bps, cfg.growth_cap_bps)
    ensures r.liquidity_weight_bps == Min(st.liquidity_weight_bps, cfg.liquidity_cap_bps)
    ensures r.safety_weight_bps <= st.safety_weight_bps
  {
    var safety := Min(st.safety_weight_bps, cfg.safety_cap_bps);
    var growth := Min(st.growth_weight_bps, cfg.growth_cap_bps);
    var liquidity := Min(st.liquidity_weight_bps, cfg.liquidity_cap_bps);
    var sum := SaturatingAddU32(SaturatingAddU32(safety, growth), liquidity);
    var trimmed := if sum > BPS_SCALE then SaturatingSub(safety, sum - BPS_SCALE) else safety;
    st.(safety_weight_bps := trimmed, growth_weight_bps := growth, liquidity_weight_bps := liquidity)
  }

  /** `clamp_weights_to_caps` as written: conditional updates of a local record. */
  method ClampWeightsToCaps(st: OimState, cfg: OimConfig) returns (r: OimState)
    ensures r == Clamped(st, cfg)
  {
    r := st;
    if r.safety_weight_bps > cfg.safety_cap_bps {
      r := r.(safety_weight_bps := cfg.safety_cap_bps);
    }
    if r.growth_weight_bps > cfg.growth_cap_bps {
      r := r.(growth_weight_bps := cfg.growth_cap_bps);
    }
    if r.liquidity_weight_bps > cfg.liquidity_cap_bps {
      r := r.(liquidity_weight_bps := cfg.liquidity_cap_bps);
    }
    var sum := SaturatingAddU32(SaturatingAddU32(r.safety_weight_bps, r.growth_weight_bps), r.liquidity_weight_bps);
    if sum > BPS_SCALE {
      var overflow := sum - BPS_SCALE;
      r := r.(safety_weight_bps := SaturatingSub(r.safety_weight_bps, overflow));
    }
  }

  // ---------------------------------------------------------------------------
  // The operations as transitions of the two persisted records
  // ---------------------------------------------------------------------------

  /** The config and state records; the module is initialized when both exist. */
  datatype Instance = Instance(config: Option<OimConfig>, state: Option<OimState>)

  /** The state a successful call writes back, and what it logs. */
  datatype Transition = Transition(state: OimState, events: seq<OimEvent>)

  /** `oim_rebalance` once both records have been read. */
  function RebalanceFrom(cfg: OimConfig, st: OimState, now: U64): Result<Transition, OimError> {
    var _ :- EnforceCooldown(st, cfg, now);
    if cfg.mode == Oracle && !AssertFreshOracle(st, cfg, now) then
      var frozen := st.(status := OracleStale, real_return_score_bps := 0);
      Ok(Transition(frozen, [StatusUpdated(OracleStale, 0, now)]))
    else
      var score :- RealReturnScore(cfg, st);
      var status := if score < 0 then Behind else Healthy;
      var delta := if status == Behind then RebalanceDelta(st, cfg) else 0;
      var moved := st.(real_return_score_bps := score, status := status,
                       safety_weight_bps := SaturatingSub(st.safety_weight_bps, delta),
                       growth_weight_bps := SaturatingAddU32(st.growth_weight_bps, delta));
      var after := Clamped(moved, cfg).(last_rebalance_at_sec := now);
      Ok(Transition(after, [StatusUpdated(status, score, now), Rebalanced(delta, delta, now)]))
  }

  function RebalanceTransition(inst: Instance, now: U64): Result<Transition, OimError> {
    if inst.config.None? || inst.state.None? then Err(NotInitialized)
    else RebalanceFrom(inst.config.value, inst.state.value, now)
  }

  /** `post_inflation_index`: the oracle's sample, stamped with `now`, replaces the last one. */
  function PostIndexTransition(inst: Instance, caller: AccountId, now: U64,
                               index_id: string, period: string, value_bps: U32): Result<Transition, OimError>
  {
    var _ :- AssertOracle(inst.config, caller);
    if inst.state.None? then Err(NotInitialized)
    else
      var sample := InflationIndex(index_id, period, value_bps, now);
      Ok(Transition(inst.state.value.(last_index := Some(sample)), [IndexPosted(index_id, period, value_bps, now)]))
  }

  // ---------------------------------------------------------------------------
  // The invariant of every state reachable from `init`
  // ---------------------------------------------------------------------------

  /** Liquidity is never given weight, growth stays within its cap, and the
      weights never sum past 100%. */
  predicate WeightInvariant(cfg: OimConfig, st: OimState) {
    ConfigValid(cfg)
    && st.liquidity_weight_bps == 0
    && st.growth_weight_bps <= cfg.growth_cap_bps
    && st.safety_weight_bps + st.growth_weight_bps + st.liquidity_weight_bps <= BPS_SCALE
  }

  /** Never initialized, or initialized and satisfying the weight invariant. */
  predicate Reachable(inst: Instance) {
    (inst.config.None? && inst.state.None?)
    || (inst.config.Some? && inst.state.Some? && WeightInvariant(inst.config.value, inst.state.value))
  }

  class Oim {
    var config: Option<OimConfig>
    var state: Option<OimState>

    ghost predicate Valid()
      reads this
    {
      Reachable(Instance(config, state))
    }

    /** `Oim::new`: neither record exists yet. */
    constructor ()
      ensures config == None && state == None
      ensures Valid()
    {
      config := None;
      state := None;
    }

    function IsInitialized(): (b: bool)
      reads this
      ensures b <==> config.Some? && state.Some?
    {
      config.Some? && state.Some?
    }

    /** `get_config` (`cfg`): the stored configuration, or NotInitialized. */
    function GetConfig(): (r: Result<OimConfig, OimError>)
      reads this
      ensures r.Ok? <==> config.Some?
      ensures r.Ok? ==> config == Some(r.value)
      ensures r.Err? ==> r.error == NotInitialized
    {
      match config
      case None => Err(NotInitialized)
      case Some(cfg) => Ok(cfg)
    }

    /** `get_state` (`st`): the stored state, or NotInitialized. */
    function GetState(): (r: Result<OimState, OimError>)
      reads this
      ensures r.Ok? <==> state.Some?
      ensures r.Ok? ==> state == Some(r.value)
      ensures r.Err? ==> r.error == NotInitialized
    {
      match state
      case None => Err(NotInitialized)
      case Some(st) => Ok(st)
    }

    /** `init`: validates the configuration, then overwrites both records; a
        second call re-initializes. */
    method Init(cfg: OimConfig) returns (r: Result<(), OimError>)
      modifies this
      ensures r == ConfigCheck(cfg)
      ensures r.Ok? ==> config == Some(cfg) && state == Some(DefaultState())
      ensures r.Err? ==> config == old(config) && state == old(state)
      ensures r.Ok? ==> Valid()
    {
      match cfg.mode {
        case Oracle =>
          if cfg.oracle_account.None? {
            return Err(OracleAccountRequired);
          }
          if cfg.fixed_hurdle_bps_annual.Some? {
            return Err(HurdleMustBeAbsent);
          }
        case FixedHurdle =>
          if cfg.fixed_hurdle_bps_annual.None? {
            return Err(HurdleRequired);
          }
          if cfg.oracle_account.Some? {
            return Err(OracleAccountMustBeAbsent);
          }
      }
      if cfg.safety_cap_bps > BPS_SCALE {
        return Err(InvalidSafetyCap);
      }
      if cfg.growth_cap_bps > BPS_SCALE {
        return Err(InvalidGrowthCap);
      }
      if cfg.liquidity_cap_bps > BPS_SCALE {
        return Err(InvalidLiquidityCap);
      }

      config := Some(cfg);
      state := Some(DefaultState());
      return Ok(());
    }

    /** `post_inflation_index`, with the caller and the clock as parameters. */
    method PostInflationIndex(caller: AccountId, now: U64, index_id: string, period: string, value_bps: U32)
      returns (r: Result<seq<OimEvent>, OimError>)
      modifies this
      ensures config == old(config)
      ensures
        var t := PostIndexTransition(old(Instance(config, state)), caller, now, index_id, period, value_bps);
        match t
        case Ok(tr) => r == Ok(tr.events) && state == Some(tr.state)
        case Err(e) => r == Err(e) && state == old(state)
      ensures old(Valid()) ==> Valid()
    {
      var authorized := AssertOracle(config, caller);
      if authorized.Err? {
        return Err(authorized.error);
      }
      if state.None? {
        return Err(NotInitialized);
      }
      var st := state.value;
      st := st.(last_index := Some(InflationIndex(index_id, period, value_bps, now)));
      state := Some(st);
      return Ok([IndexPosted(index_id, period, value_bps, now)]);
    }

    /** `oim_rebalance`, with the clock as a parameter. The state is read into a
        local, updated step by step, and written back only on success. */
    method OimRebalance(now: U64) returns (r: Result<seq<OimEvent>, OimError>)
      modifies this
      ensures config == old(config)
      ensures
        match RebalanceTransition(old(Instance(config, state)), now)
        case Ok(tr) => r == Ok(tr.events) && state == Some(tr.state)
        case Err(e) => r == Err(e) && state == old(state)
      ensures old(Valid()) ==> Valid()
    {
      if config.None? || state.None? {
        return Err(NotInitialized);
      }
      var cfg := config.value;
      var st := state.value;
      ghost var before := st;

      var cooldown := EnforceCooldown(st, cfg, now);
      if cooldown.Err? {
        return Err(cooldown.error);
      }

      if cfg.mode == Oracle {
        var isFresh := AssertFreshOracle(st, cfg, now);
        if !isFresh {
          st := st.(status := OracleStale);
          st := st.(real_return_score_bps := 0);
          state := Some(st);
          if old(Valid()) {
            StaleFreezeKeepsInvariant(cfg, before, now);
          }
          return Ok([StatusUpdated(st.status, st.real_return_score_bps, now)]);
        }
      }

      var inflation := InflationBps(cfg, st);
      var difference := CheckedSubI32(VAULT_GROWTH_BPS, inflation);
      if difference.None? {
        return Err(ScoreOverflow);
      }
      var score := CheckedSubI32(difference.value, cfg.min_real_return_bps);
      if score.None? {
        return Err(ScoreOverflow);
      }
      st := st.(real_return_score_bps := score.value);
      st := st.(status := if st.real_return_score_bps < 0 then Behind else Healthy);
      var statusEvent := StatusUpdated(st.status, st.real_return_score_bps, now);

      var fromSafety: U32 := 0;
      var toGrowth: U32 := 0;
      if st.status == Behind {
        var step := cfg.max_rebalance_step_bps.GetOr(DEFAULT_STEP_BPS);
        var availableFromSafety := st.safety_weight_bps;
        var growthHeadroom := SaturatingSub(cfg.growth_cap_bps, st.growth_weight_bps);
        var delta := Min(Min(step, availableFromSafety), growthHeadroom);
        if delta > 0 {
          st := st.(safety_weight_bps := SaturatingSub(st.safety_weight_bps, delta));
          st := st.(growth_weight_bps := SaturatingAddU32(st.growth_weight_bps, delta));
          fromSafety := delta;
          toGrowth := delta;
        }
      }

      st := ClampWeightsToCaps(st, cfg);
      st := st.(last_rebalance_at_sec := now);
      state := Some(st);
      if old(Valid()) {
        RebalancePreservesInvariant(cfg, before, now);
      }
      return Ok([statusEvent, Rebalanced(fromSafety, toGrowth, now)]);
    }
  }

  // ---------------------------------------------------------------------------
  // Properties of the transitions
  // ---------------------------------------------------------------------------

  /** The freeze only touches status and score. */
  lemma StaleFreezeKeepsInvariant(cfg: OimConfig, st: OimState, now: U64)
    requires WeightInvariant(cfg, st)
    ensures WeightInvariant(cfg, st.(status := OracleStale, real_return_score_bps := 0))
  {
  }

  /** `init` writes a safety weight of 10000 whatever the safety cap, so until
      the first rebalance the safety weight can sit above its cap. */
  lemma DefaultSafetyMayExceedCap()
    ensures
      var cfg := OimConfig(FixedHurdle, None, Some(200), 365, 0, 86400, 0, 5000, 5000, 0, None);
      ConfigCheck(cfg).Ok? && WeightInvariant(cfg, DefaultState())
      && DefaultState().safety_weight_bps > cfg.safety_cap_bps
  {
  }

  /** In Oracle mode no index exists right after `init`, so the first rebalance
      freezes without clamping and the safety weight stays above its cap. */
  lemma OracleFirstRebalanceKeepsDefaultSafety()
    ensures
      var cfg := OimConfig(Oracle, Some("oracle.near"), None, 365, 0, 86400, 3600, 5000, 5000, 0, None);
      var inst := Run(Instance(None, None), [InitCall(cfg), RebalanceCall(10)]);
      inst.state.Some? && inst.state.value.safety_weight_bps == 10_000
      && inst.state.value.status == OracleStale && inst.state.value.last_rebalance_at_sec == 0
  {
    var cfg := OimConfig(Oracle, Some("oracle.near"), None, 365, 0, 86400, 3600, 5000, 5000, 0, None);
    var calls := [InitCall(cfg), RebalanceCall(10)];
    var initialized := Instance(Some(cfg), Some(DefaultState()));
    assert Apply(Instance(None, None), calls[0]) == initialized;
    assert calls[1..] == [RebalanceCall(10)];
    assert Run(initialized, [RebalanceCall(10)]) == Apply(initialized, RebalanceCall(10));
  }

  /** Capping and trimming leave the weights within 100% when the caps are valid
      and growth plus liquidity fit; safety is trimmed no further than needed. */
  lemma ClampedWithinScale(st: OimState, cfg: OimConfig)
    requires CapsInRange(cfg)
    requires Min(st.growth_weight_bps, cfg.growth_cap_bps) + Min(st.liquidity_weight_bps, cfg.liquidity_cap_bps) <= BPS_SCALE
    ensures
      var r := Clamped(st, cfg);
      r.safety_weight_bps + r.growth_weight_bps + r.liquidity_weight_bps <= BPS_SCALE
      && r.safety_weight_bps == Min(Min(st.safety_weight_bps, cfg.safety_cap_bps),
                                    BPS_SCALE - r.growth_weight_bps - r.liquidity_weight_bps)
  {
  }

  /** Every successful rebalance keeps the weight invariant. */
  lemma RebalancePreservesInvariant(cfg: OimConfig, st: OimState, now: U64)
    requires WeightInvariant(cfg, st)
    requires RebalanceFrom(cfg, st, now).Ok?
    ensures WeightInvariant(cfg, RebalanceFrom(cfg, st, now).value.state)
  {
    if !(cfg.mode == Oracle && !AssertFreshOracle(st, cfg, now)) {
      var score := RealReturnScore(cfg, st).value;
      var delta := if score < 0 then RebalanceDelta(st, cfg) else 0;
      var moved := st.(real_return_score_bps := score, status := if score < 0 then Behind else Healthy,
                       safety_weight_bps := SaturatingSub(st.safety_weight_bps, delta),
                       growth_weight_bps := SaturatingAddU32(st.growth_weight_bps, delta));
      ClampedWithinScale(moved, cfg);
    }
  }

  /** Why the caps must be in range: with caps above 10000, which `init`
      rejects, the saturating u32 sum under-reports and the trim falls short. */
  lemma ClampNeedsCapsInRange()
    ensures
      var cfg := OimConfig(FixedHurdle, None, Some(0), 365, 0, 0, 0, U32_MAX, U32_MAX, U32_MAX, None);
      var st := OimState(None, 0, 0, Healthy, U32_MAX, 1, 0);
      var r := Clamped(st, cfg);
      r.safety_weight_bps + r.growth_weight_bps + r.liquidity_weight_bps == BPS_SCALE + 1
  {
  }

  /** With a last rebalance on record, a call before the cooldown has elapsed
      fails; a zero timestamp bypasses the gate, so only the score can fail. */
  lemma CooldownGate(cfg: OimConfig, st: OimState, now: U64)
    ensures st.last_rebalance_at_sec != 0 && SaturatingSub(now, st.last_rebalance_at_sec) < cfg.rebalance_cooldown_sec
      ==> RebalanceFrom(cfg, st, now) == Err(CooldownActive)
    ensures st.last_rebalance_at_sec == 0 && RebalanceFrom(cfg, st, now).Err?
      ==> RebalanceFrom(cfg, st, now).error == ScoreOverflow
  {
  }

  /** In Oracle mode a missing or over-age index freezes the module: the call
      succeeds, status becomes OracleStale and the score 0, and neither the
      weights nor the rebalance timestamp move. */
  lemma StaleOracleFreezes(cfg: OimConfig, st: OimState, now: U64)
    requires EnforceCooldown(st, cfg, now).Ok?
    requires cfg.mode.Oracle?
    requires st.last_index.None? || now > st.last_index.value.posted_at_sec + cfg.max_oracle_age_sec
    ensures RebalanceFrom(cfg, st, now).Ok?
    ensures
      var after := RebalanceFrom(cfg, st, now).value.state;
      after.status == OracleStale && after.real_return_score_bps == 0
      && after.last_index == st.last_index
      && after.last_rebalance_at_sec == st.last_rebalance_at_sec
      && after.safety_weight_bps == st.safety_weight_bps
      && after.growth_weight_bps == st.growth_weight_bps
      && after.liquidity_weight_bps == st.liquidity_weight_bps
    ensures RebalanceFrom(cfg, st, now).value.events == [StatusUpdated(OracleStale, 0, now)]
  {
  }

  /** Oracle mode, maximum age 100 s, index posted at 0, rebalance at 150:
      frozen as OracleStale, no error. */
  lemma StaleOracleScenario(st: OimState)
    requires st.last_rebalance_at_sec == 0
    requires st.last_index == Some(InflationIndex("US_CPI_U", "2026-01", 300, 0))
    ensures
      var cfg := OimConfig(Oracle, Some("oracle.near"), None, 365, 200, 86400, 100, 10_000, 10_000, 0, None);
      RebalanceFrom(cfg, st, 150) == Ok(Transition(st.(status := OracleStale, real_return_score_bps := 0),
                                                   [StatusUpdated(OracleStale, 0, 150)]))
  {
  }

  /** On the fresh path the score is `0 - inflation - min_real_return_bps`, the
      status is Behind exactly when the score is negative, the timestamp becomes
      `now` even when nothing moves, and the Rebalanced event reports the same
      amount taken from safety as given to growth. */
  lemma FreshRebalanceScoresAndStamps(cfg: OimConfig, st: OimState, now: U64)
    requires EnforceCooldown(st, cfg, now).Ok?
    requires AssertFreshOracle(st, cfg, now)
    requires RealReturnScore(cfg, st).Ok?
    ensures RebalanceFrom(cfg, st, now).Ok?
    ensures
      var t := RebalanceFrom(cfg, st, now).value;
      var score := t.state.real_return_score_bps;
      score == VAULT_GROWTH_BPS - InflationBps(cfg, st) - cfg.min_real_return_bps
      && (t.state.status == Behind <==> score < 0)
      && (t.state.status == Healthy <==> score >= 0)
      && t.state.last_rebalance_at_sec == now
      && t.state.last_index == st.last_index
      && |t.events| == 2
      && t.events[0] == StatusUpdated(t.state.status, score, now)
      && t.events[1].Rebalanced? && t.events[1].from_safety_bps == t.events[1].to_growth_bps
      && t.events[1].at_sec == now
  {
  }

  /** The inflation term is the posted value in Oracle mode and the hurdle in
      FixedHurdle mode, as long as they are below 2^31. */
  lemma InflationIsIndexOrHurdle(cfg: OimConfig, st: OimState)
    ensures cfg.mode.Oracle? && st.last_index.Some? && st.last_index.value.value_bps <= I32_MAX
      ==> InflationBps(cfg, st) == st.last_index.value.value_bps
    ensures cfg.mode.Oracle? && st.last_index.None? ==> InflationBps(cfg, st) == 0
    ensures cfg.mode.FixedHurdle? && cfg.fixed_hurdle_bps_annual.Some? && cfg.fixed_hurdle_bps_annual.value <= I32_MAX
      ==> InflationBps(cfg, st) == cfg.fixed_hurdle_bps_annual.value
  {
  }

  /** `value_bps as i32` reads an index of 2^32 - 1 bps as -1 bps: an enormous
      inflation figure scores as deflation and leaves the module Healthy. */
  lemma WrappedIndexReadsAsDeflation(st: OimState)
    requires st.last_rebalance_at_sec == 0
    requires st.last_index == Some(InflationIndex("US_CPI_U", "2026-01", U32_MAX, 1000))
    ensures
      var cfg := OimConfig(Oracle, Some("oracle.near"), None, 365, 0, 86400, 3600, 10_000, 10_000, 0, None);
      RebalanceFrom(cfg, st, 1000).Ok?
      && RebalanceFrom(cfg, st, 1000).value.state.real_return_score_bps == 1
      && RebalanceFrom(cfg, st, 1000).value.state.status == Healthy
  {
  }

  /** From a reachable state, a fresh rebalance moves exactly `delta` from
      safety to growth (`delta` as RebalanceDelta when Behind, 0 otherwise); the
      clamp then only cuts safety to its own cap, and liquidity stays 0. */
  lemma RebalanceMovesDelta(cfg: OimConfig, st: OimState, now: U64)
    requires WeightInvariant(cfg, st)
    requires RebalanceFrom(cfg, st, now).Ok?
    requires AssertFreshOracle(st, cfg, now)
    ensures
      var t := RebalanceFrom(cfg, st, now).value;
      var delta := if t.state.status == Behind then RebalanceDelta(st, cfg) else 0;
      t.state.growth_weight_bps == st.growth_weight_bps + delta
      && t.state.safety_weight_bps == Min(st.safety_weight_bps - delta, cfg.safety_cap_bps)
      && t.state.liquidity_weight_bps == 0
      && t.events[1] == Rebalanced(delta, delta, now)
  {
    var score := RealReturnScore(cfg, st).value;
    var delta := if score < 0 then RebalanceDelta(st, cfg) else 0;
    var moved := st.(real_return_score_bps := score, status := if score < 0 then Behind else Healthy,
                     safety_weight_bps := SaturatingSub(st.safety_weight_bps, delta),
                     growth_weight_bps := SaturatingAddU32(st.growth_weight_bps, delta));
    ClampedWithinScale(moved, cfg);
  }

  /** After a rebalance that stamped a non-zero `now`, any call before the
      cooldown has elapsed fails with CooldownActive. */
  lemma SecondRebalanceWithinCooldownFails(cfg: OimConfig, st: OimState, first: U64, second: U64)
    requires RebalanceFrom(cfg, st, first).Ok?
    requires RebalanceFrom(cfg, st, first).value.state.last_rebalance_at_sec == first
    requires 0 < first && 0 < cfg.rebalance_cooldown_sec && second < first + cfg.rebalance_cooldown_sec
    ensures RebalanceFrom(cfg, RebalanceFrom(cfg, st, first).value.state, second) == Err(CooldownActive)
  {
    CooldownGate(cfg, RebalanceFrom(cfg, st, first).value.state, second);
  }

  /** `post_inflation_index` succeeds exactly for the configured oracle of an
      initialized Oracle-mode module, and then changes only `last_index`. */
  lemma PostIndexOnlySetsLastIndex(inst: Instance, caller: AccountId, now: U64,
                                   index_id: string, period: string, value_bps: U32)
    ensures PostIndexTransition(inst, caller, now, index_id, period, value_bps).Ok? <==>
      inst.config.Some? && inst.state.Some? && inst.config.value.mode.Oracle?
      && inst.config.value.oracle_account == Some(caller)
    ensures
      var t := PostIndexTransition(inst, caller, now, index_id, period, value_bps);
      t.Ok? ==>
        t.value.state == inst.state.value.(last_index := Some(InflationIndex(index_id, period, value_bps, now)))
        && t.value.state.status == inst.state.value.status
        && t.value.state.safety_weight_bps == inst.state.value.safety_weight_bps
        && t.value.state.growth_weight_bps == inst.state.value.growth_weight_bps
        && t.value.events == [IndexPosted(index_id, period, value_bps, now)]
  {
  }

  // ---------------------------------------------------------------------------
  // Any sequence of calls
  // ---------------------------------------------------------------------------

  datatype OimCall =
    | InitCall(cfg: OimConfig)
    | PostIndexCall(caller: AccountId, now: U64, index_id: string, period: string, value_bps: U32)
    | RebalanceCall(now: U64)

  /** One call against the two records; a failed call writes nothing. */
  function Apply(inst: Instance, call: OimCall): Instance {
    match call
    case InitCall(cfg) =>
      if ConfigCheck(cfg).Ok? then Instance(Some(cfg), Some(DefaultState())) else inst
    case PostIndexCall(caller, now, index_id, period, value_bps) =>
      (match PostIndexTransition(inst, caller, now, index_id, period, value_bps)
       case Ok(t) => inst.(state := Some(t.state))
       case Err(_) => inst)
    case RebalanceCall(now) =>
      match RebalanceTransition(inst, now)
      case Ok(t) => inst.(state := Some(t.state))
      case Err(_) => inst
  }

  function Run(inst: Instance, calls: seq<OimCall>): Instance
    decreases |calls|
  {
    if |calls| == 0 then inst else Run(Apply(inst, calls[0]), calls[1..])
  }

  lemma ApplyKeepsReachable(inst: Instance, call: OimCall)
    requires Reachable(inst)
    ensures Reachable(Apply(inst, call))
  {
    if call.RebalanceCall? && RebalanceTransition(inst, call.now).Ok? {
      RebalancePreservesInvariant(inst.config.value, inst.state.value, call.now);
    }
  }

  lemma {:induction false} RunKeepsReachable(inst: Instance, calls: seq<OimCall>)
    requires Reachable(inst)
    ensures Reachable(Run(inst, calls))
    decreases |calls|
  {
    if |calls| > 0 {
      ApplyKeepsReachable(inst, calls[0]);
      RunKeepsReachable(Apply(inst, calls[0]), calls[1..]);
    }
  }

  /** From `Oim::new`, after any calls whatsoever, the module is either still
      uninitialized or its weights satisfy the invariant: liquidity 0, growth
      within its cap, the sum within 10000. */
  lemma EveryReachableStateKeepsWeightInvariant(calls: seq<OimCall>)
    ensures
      var inst := Run(Instance(None, None), calls);
      inst.config.Some? ==> inst.state.Some? && WeightInvariant(inst.config.value, inst.state.value)
  {
    RunKeepsReachable(Instance(None, None), calls);
  }
}
