/** The decision engine of one polling cycle, as pure functions of the
    coordinator's control state and one snapshot of its inputs: the blocking
    precedence, price/time gating, the solar-surplus sub-machine with its
    sticky pause, and the charger commands chosen from the live status. */
module Engine {
  import opened Text
  import opened Const
  import opened Readings

  /** The coordinator's control modes. */
  datatype Mode = PriceTime | SolarSurplus | Manual {
    /** The label shown to the user. */
    function Label(): string {
      match this
      case PriceTime => ControlModePriceTime
      case SolarSurplus => ControlModeSolarSurplus
      case Manual => ControlModeManual
    }
  }

  /** A service call sent to the charger. */
  datatype Command =
    | SetDynamicCurrent(amps: real)  // set_charger_dynamic_limit
    | StartCharging                  // action_command "start"
    | PauseCharging                  // action_command "pause"

  /** Why the cycle decided what it decided. */
  datatype Reason =
    | ChargerUnreachable(status: string)
    | MainSwitchOff
    | SocLimitReached(soc: real, limit: real)
    | PriceTimeCharging(price: real, maxPrice: real)
    | SolarCharging(availableA: real, minimumA: real, targetA: real)
    | SolarPaused(availableA: real, minimumA: real)
    | SolarSurplusTooLow(availableA: real, minimumA: real)
    | NoConditionsMet
    | AwaitingInternalEntities

  /** Everything one cycle reads from the host. `targetSocLimit` is the configured
      limit (already a number, as the configuration flow saves it). */
  datatype Snapshot = Snapshot(
    status: Reading,
    mainSwitch: Reading,
    price: Reading,
    timeSchedule: Reading,
    solarSchedule: Reading,
    solarProduction: Reading,
    hwMaxCurrent: Reading,
    dynamicLimit: Reading,
    soc: Reading,
    smartEnable: Reading,
    maxPrice: Reading,
    solarEnable: Reading,
    solarBuffer: Reading,
    minSolarCurrent: Reading,
    targetSocLimit: Option<real>)

  /** The values one cycle derives from its snapshot before deciding. */
  datatype Observation = Observation(
    status: string,               // lower-cased charger status
    mainSwitchOn: bool,
    smartEnabled: bool,
    solarEnabled: bool,
    price: Option<real>,          // currency per kWh
    maxPrice: real,
    timeScheduleActive: bool,
    solarScheduleActive: bool,
    solarProductionW: real,
    hwMaxA: real,
    soc: Option<real>,
    targetSocLimit: Option<real>,
    minSolarCurrentA: real,
    solarBufferW: real,
    dynamicLimitA: Option<real>,  // the limit the charger reports
    manuallyPaused: bool)

  /** The fields of the coordinator that carry over from one cycle to the next. */
  datatype ControlState = ControlState(
    shouldCharge: bool,
    targetCurrentA: real,
    internalMode: Option<Mode>,
    sessionStart: Option<int>,
    solarSessionActive: bool,
    priceTimeEligible: bool)

  /** The state of a newly constructed coordinator. */
  const InitialState := ControlState(false, MinChargeCurrentA, None, None, false, false)

  function Max(a: real, b: real): (m: real)
    ensures m >= a && m >= b && (m == a || m == b)
  {
    if b > a then b else a
  }

  function Min(a: real, b: real): (m: real)
    ensures m <= a && m <= b && (m == a || m == b)
  {
    if b < a then b else a
  }

  // ----- Derived inputs -----

  /** The charger's hardware limit: the sensor value, 16 A when it cannot be read. */
  function HwMaxAmps(s: Snapshot): real {
    NumberOr(s.hwMaxCurrent, MaxChargeCurrentAHwDefault)
  }

  /** The maximum accepted price: 999 when it cannot be read, and also when it reads 0. */
  function MaxAcceptedPrice(s: Snapshot): (p: real)
    ensures p != 0.0
    ensures ReadNumber(s.maxPrice).Some? && ReadNumber(s.maxPrice).value != 0.0 ==> p == ReadNumber(s.maxPrice).value
    ensures ReadNumber(s.maxPrice).None? || ReadNumber(s.maxPrice).value == 0.0 ==> p == NoMaxPrice
  {
    var v := NumberOr(s.maxPrice, NoMaxPrice);
    if v == 0.0 then NoMaxPrice else v
  }

  /** Solar production in watts, 0 when it cannot be read. */
  function SolarProductionW(s: Snapshot): real {
    PowerValue(s.solarProduction).GetOr(0.0)
  }

  /** The power kept in reserve, 300 W when it cannot be read. */
  function SolarBufferW(s: Snapshot): real {
    NumberOr(s.solarBuffer, PowerMarginW)
  }

  /** The current needed to start solar charging, 6 A when it cannot be read. */
  function MinSolarCurrentA(s: Snapshot): real {
    NumberOr(s.minSolarCurrent, MinChargeCurrentA)
  }

  /** Watts per ampere over three phases at 230 V. */
  const WattsPerAmp: real := (Phases * VoltagePhaseNeutral) as real

  /** The whole amperes the surplus `productionW - bufferW` can feed, rounded down. */
  function CalculatedSolarCurrent(productionW: real, bufferW: real): (a: int)
    ensures a as real * 690.0 <= productionW - bufferW < (a + 1) as real * 690.0
  {
    ((productionW - bufferW) / WattsPerAmp).Floor
  }

  /** What holds of every observation a snapshot yields: a manual pause is only seen
      in "awaiting_start" with a dynamic limit of 0, and the maximum price is never 0. */
  predicate WellFormed(o: Observation) {
    && (o.manuallyPaused ==> o.status == StatusAwaitingStart && o.dynamicLimitA == Some(0.0))
    && o.maxPrice != 0.0
  }

  /** The readings of one cycle, with every fallback applied. */
  function Observe(s: Snapshot): (o: Observation)
    ensures WellFormed(o)
    ensures o.mainSwitchOn <==> !s.mainSwitch.Present? || s.mainSwitch.state == StateOn
    ensures o.status == StateUnknown || s.status.Present?
  {
    Observation(
      ChargerStatus(s.status), MainSwitchOn(s.mainSwitch), IsOn(s.smartEnable), IsOn(s.solarEnable),
      SpotPriceInKr(s.price), MaxAcceptedPrice(s),
      ScheduleActive(s.timeSchedule), ScheduleActive(s.solarSchedule),
      SolarProductionW(s), HwMaxAmps(s), NumberValue(s.soc, None), s.targetSocLimit,
      MinSolarCurrentA(s), SolarBufferW(s), DynamicLimit(s.dynamicLimit),
      IsManuallyPaused(s.status, s.dynamicLimit))
  }

  /** The state of charge has reached the configured limit (both must be known). */
  predicate SocReached(o: Observation) {
    o.soc.Some? && o.targetSocLimit.Some? && o.soc.value >= o.targetSocLimit.value
  }

  /** Smart charging is on, a price is known and acceptable, and the time schedule allows it. */
  predicate PriceTimeMet(o: Observation) {
    o.smartEnabled && o.price.Some? && o.price.value <= o.maxPrice && o.timeScheduleActive
  }

  /** Solar charging is switched on and its schedule allows it. */
  predicate SolarAllowed(o: Observation) {
    o.solarEnabled && o.solarScheduleActive
  }

  // ----- One cycle -----

  /** `_calculate_solar_charging_action` on the state it is handed. */
  function SolarAction(st: ControlState, calculatedA: int, minimumA: real, hwMaxA: real, priceTimeMet: bool)
    : (ControlState, Reason)
  {
    var available := Max(0.0, calculatedA as real);
    var (next, reason) :=
      if available >= minimumA then
        var target := Min(available, hwMaxA);
        var session :=
          if !st.solarSessionActive && (st.sessionStart.None? || st.priceTimeEligible) then None
          else st.sessionStart;
        (st.(internalMode := Some(SolarSurplus), shouldCharge := true, targetCurrentA := target,
             sessionStart := session, solarSessionActive := true),
         SolarCharging(available, minimumA, target))
      else if st.solarSessionActive then
        (st.(internalMode := Some(Manual), shouldCharge := true, targetCurrentA := 0.0),
         SolarPaused(available, minimumA))
      else
        (st.(internalMode := Some(Manual), shouldCharge := false, solarSessionActive := false),
         SolarSurplusTooLow(available, minimumA));
    var clearEligible :=
      next.internalMode == Some(SolarSurplus) || (next.internalMode == Some(Manual) && !priceTimeMet);
    (next.(priceTimeEligible := if clearEligible then false else next.priceTimeEligible), reason)
  }

  /** The decision part of `_async_update_data`: everything before the charger is driven. */
  function Decision(st: ControlState, o: Observation, now: int): (ControlState, Reason) {
    var base := st.(shouldCharge := false, targetCurrentA := o.hwMaxA, internalMode := Some(Manual));
    if IsUnreachableStatus(o.status) then
      (base.(sessionStart := None, priceTimeEligible := false), ChargerUnreachable(o.status))
    else if !o.mainSwitchOn then
      (base.(sessionStart := None, solarSessionActive := false, priceTimeEligible := false), MainSwitchOff)
    else if SocReached(o) then
      (base.(sessionStart := None, solarSessionActive := false, priceTimeEligible := false),
       SocLimitReached(o.soc.value, o.targetSocLimit.value))
    else if PriceTimeMet(o) then
      var session := if st.sessionStart.None? || !st.priceTimeEligible then Some(now) else st.sessionStart;
      (base.(internalMode := Some(PriceTime), shouldCharge := true, targetCurrentA := o.hwMaxA,
             solarSessionActive := false, sessionStart := session, priceTimeEligible := true),
       PriceTimeCharging(o.price.value, o.maxPrice))
    else if SolarAllowed(o) then
      SolarAction(base, CalculatedSolarCurrent(o.solarProductionW, o.solarBufferW), o.minSolarCurrentA, o.hwMaxA, false)
    else
      (base.(sessionStart := None, solarSessionActive := false, priceTimeEligible := false), NoConditionsMet)
  }

  /** Python's `round(x)`: the nearest integer, ties to the even one. */
  function RoundHalfEven(x: real): (n: int)
    ensures n as real - 0.5 <= x <= n as real + 0.5
    ensures x - x.Floor as real == 0.5 ==> n % 2 == 0
  {
    var f := x.Floor;
    var frac := x - f as real;
    if frac < 0.5 then f
    else if frac > 0.5 then f + 1
    else if f % 2 == 0 then f
    else f + 1
  }

  /** Python's `round(x, 1)` on exact values. */
  function Round1(x: real): (r: real)
    ensures x - 0.05 <= r <= x + 0.05
    ensures (10.0 * r).Floor as real == 10.0 * r
    ensures 10.0 * x - (10.0 * x).Floor as real == 0.5 ==> (10.0 * r).Floor % 2 == 0
  {
    var n := RoundHalfEven(x * 10.0);
    assert 10.0 * (n as real / 10.0) == n as real;
    n as real / 10.0
  }

  /** A multiple of 0.1 is its own rounding. */
  lemma Round1OfTenth(n: int)
    ensures Round1(n as real / 10.0) == n as real / 10.0
  {
    assert (n as real / 10.0) * 10.0 == n as real;
  }

  /** What `_control_charger` sends and the session start it leaves behind. */
  datatype Actuation = Actuation(commands: seq<Command>, sessionStart: Option<int>)

  /** The statuses in which a requested charge is (re)started: the ready family, "paused", "completed". */
  predicate IsResumableStatus(status: string) {
    status in StatusReadyToCharge + [StatusPaused, StatusCompleted]
  }

  /** The current the charger should be set to when charging is requested. */
  function CurrentToSet(currentA: real, mode: Option<Mode>, hwMaxA: real): real {
    if mode == Some(PriceTime) then hwMaxA else Min(currentA, hwMaxA)
  }

  /** The dynamic limit differs from `toSet` after rounding both to one decimal (or is unknown). */
  predicate NeedsCurrentUpdate(dynamicLimitA: Option<real>, toSet: real) {
    dynamicLimitA.None? || Round1(dynamicLimitA.value) != Round1(toSet)
  }

  /** `_control_charger(should_charge, current_a, ...)`; `mainSwitchOn` is the switch as the cycle read it. */
  function ChargerControl(shouldCharge: bool, currentA: real, mode: Option<Mode>, session: Option<int>,
                          mainSwitchOn: bool, o: Observation, now: int): Actuation
  {
    if !mainSwitchOn then Actuation([], session)
    else if shouldCharge then
      var toSet := CurrentToSet(currentA, mode, o.hwMaxA);
      var setCurrent := SetDynamicCurrent(Max(0.0, toSet));
      var start := if mode == Some(PriceTime) then [StartCharging] else [];
      var (commands, session') :=
        if o.manuallyPaused then ([setCurrent] + start, session)
        else if IsResumableStatus(o.status) then ([setCurrent] + start, session)
        else if o.status == StatusCharging then
          (if NeedsCurrentUpdate(o.dynamicLimitA, toSet) then [setCurrent] else [], session)
        else if o.status == StatusAwaitingStart then ([setCurrent] + start, session)
        else if IsUnreachableStatus(o.status) then ([], None)
        else ([], session);
      Actuation(commands, if session'.None? && !IsDisconnectedStatus(o.status) then Some(now) else session')
    else if o.status == StatusCharging || (o.status == StatusPaused && mode != Some(Manual)) then
      Actuation([PauseCharging], None)
    else if session.Some? && !(o.status == StatusAwaitingStart || o.status == StatusPaused) then
      Actuation([], None)
    else
      Actuation([], session)
  }

  /** The outcome of one full cycle. */
  datatype CycleOutcome = CycleOutcome(state: ControlState, commands: seq<Command>, reason: Reason)

  /** `_async_update_data` once the internal entities are resolved. */
  function Cycle(st: ControlState, o: Observation, now: int): CycleOutcome {
    var (d, reason) := Decision(st, o, now);
    var a := ChargerControl(d.shouldCharge, d.targetCurrentA, d.internalMode, d.sessionStart, o.mainSwitchOn, o, now);
    CycleOutcome(d.(sessionStart := a.sessionStart), a.commands, reason)
  }

  /** The mode shown to the user. */
  function ActiveControlMode(st: ControlState): Mode {
    st.internalMode.GetOr(Manual)
  }
}
