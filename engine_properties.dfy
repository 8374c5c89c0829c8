/** Properties of the decision engine: blocking precedence, price/time gating,
    the solar sub-machine, the charger command choice, and what every cycle
    leaves behind. */
module EngineProperties {
  import opened Text
  import opened Const
  import opened Readings
  import opened Engine

  /** No blocking condition holds: the charger is reachable, its main switch is on
      and the state of charge is below its limit (or one of them is unknown). */
  predicate Unblocked(o: Observation) {
    !IsUnreachableStatus(o.status) && o.mainSwitchOn && !SocReached(o)
  }

  // ----- Blocking precedence -----

  /** A disconnected or offline charger blocks everything. The solar flag is left as it was. */
  lemma UnreachableChargerBlocks(st: ControlState, o: Observation, now: int)
    requires IsUnreachableStatus(o.status)
    ensures var c := Cycle(st, o, now);
      && !c.state.shouldCharge && c.state.internalMode == Some(Manual)
      && c.state.sessionStart.None? && !c.state.priceTimeEligible
      && c.state.solarSessionActive == st.solarSessionActive
      && c.commands == [] && c.reason == ChargerUnreachable(o.status)
  {
    assert o.status != StatusCharging && o.status != StatusPaused;
  }

  /** A main switch that does not read "on" blocks the cycle next, and nothing is sent. */
  lemma MainSwitchOffBlocks(st: ControlState, o: Observation, now: int)
    requires !IsUnreachableStatus(o.status) && !o.mainSwitchOn
    ensures var c := Cycle(st, o, now);
      && !c.state.shouldCharge && c.state.internalMode == Some(Manual)
      && c.state.sessionStart.None? && !c.state.solarSessionActive && !c.state.priceTimeEligible
      && c.commands == [] && c.reason == MainSwitchOff
  {
  }

  /** A state of charge at or above its limit blocks the cycle next; a charging
      charger is paused, nothing else is sent. */
  lemma SocLimitBlocks(st: ControlState, o: Observation, now: int)
    requires !IsUnreachableStatus(o.status) && o.mainSwitchOn && SocReached(o)
    ensures var c := Cycle(st, o, now);
      && !c.state.shouldCharge && c.state.internalMode == Some(Manual)
      && c.state.sessionStart.None? && !c.state.solarSessionActive && !c.state.priceTimeEligible
      && c.commands == (if o.status == StatusCharging then [PauseCharging] else [])
      && c.reason == SocLimitReached(o.soc.value, o.targetSocLimit.value)
  {
  }

  // ----- Price/time gating -----

  /** Unblocked, the cycle charges by price/time exactly when the price/time conditions
      hold; it then charges at the hardware limit and keeps the session of an earlier
      price/time cycle, or opens a new one. */
  lemma PriceTimeGating(st: ControlState, o: Observation, now: int)
    requires Unblocked(o)
    ensures var c := Cycle(st, o, now);
      c.state.internalMode == Some(PriceTime) <==> PriceTimeMet(o)
    ensures var c := Cycle(st, o, now);
      PriceTimeMet(o) ==>
        && c.state.shouldCharge && c.state.targetCurrentA == o.hwMaxA
        && !c.state.solarSessionActive && c.state.priceTimeEligible
        && c.state.sessionStart == (if st.sessionStart.None? || !st.priceTimeEligible then Some(now) else st.sessionStart)
  {
  }

  /** A known price above the accepted maximum never yields price/time charging. */
  lemma ExpensivePriceNeverPriceTime(st: ControlState, o: Observation, now: int)
    requires o.price.Some? && o.price.value > o.maxPrice
    ensures Cycle(st, o, now).state.internalMode != Some(PriceTime)
  {
  }

  /** A maximum price that cannot be read, or reads 0, accepts every price up to 999. */
  lemma UnsetMaxPriceIs999(s: Snapshot)
    requires ReadNumber(s.maxPrice).None? || ReadNumber(s.maxPrice) == Some(0.0)
    ensures Observe(s).maxPrice == 999.0
  {
  }

  // ----- Solar surplus -----

  /** The three cases of the solar sub-machine: enough current charges at
      min(current, hardware limit); too little current while a solar session runs keeps
      charging requested at exactly 0 A with the session untouched; too little otherwise
      requests nothing. Without price/time conditions the price/time flag ends cleared. */
  lemma SolarStickiness(st: ControlState, calculatedA: int, minimumA: real, hwMaxA: real, priceTimeMet: bool)
    ensures var (n, _) := SolarAction(st, calculatedA, minimumA, hwMaxA, priceTimeMet);
      var available := if calculatedA < 0 then 0.0 else calculatedA as real;
      && (available >= minimumA ==>
            && n.internalMode == Some(SolarSurplus) && n.shouldCharge && n.solarSessionActive
            && n.targetCurrentA == Min(available, hwMaxA) && !n.priceTimeEligible
            && n.sessionStart == (if !st.solarSessionActive && st.priceTimeEligible then None else st.sessionStart))
      && (available < minimumA && st.solarSessionActive ==>
            && n.internalMode == Some(Manual) && n.shouldCharge && n.solarSessionActive
            && n.targetCurrentA == 0.0 && n.sessionStart == st.sessionStart)
      && (available < minimumA && !st.solarSessionActive ==>
            && n.internalMode == Some(Manual) && !n.shouldCharge && !n.solarSessionActive
            && n.targetCurrentA == st.targetCurrentA && n.sessionStart == st.sessionStart)
      && (!priceTimeMet ==> !n.priceTimeEligible)
  {
  }

  /** The solar branch of a whole cycle: it runs only unblocked, without price/time
      conditions and with solar allowed; house consumption plays no part, only
      floor((production - buffer) / 690), with a negative value read as 0. */
  lemma SolarCycle(st: ControlState, o: Observation, now: int)
    requires Unblocked(o) && !PriceTimeMet(o) && SolarAllowed(o)
    ensures var c := Cycle(st, o, now);
      var calculated := CalculatedSolarCurrent(o.solarProductionW, o.solarBufferW);
      var available := if calculated < 0 then 0.0 else calculated as real;
      && !c.state.priceTimeEligible
      && (available >= o.minSolarCurrentA ==>
            && c.state.internalMode == Some(SolarSurplus) && c.state.shouldCharge
            && c.state.targetCurrentA == Min(available, o.hwMaxA))
      && (available < o.minSolarCurrentA ==>
            && c.state.internalMode == Some(Manual)
            && (c.state.shouldCharge <==> st.solarSessionActive))
  {
    var base := st.(shouldCharge := false, targetCurrentA := o.hwMaxA, internalMode := Some(Manual));
    SolarStickiness(base, CalculatedSolarCurrent(o.solarProductionW, o.solarBufferW), o.minSolarCurrentA, o.hwMaxA, false);
  }

  /** Unblocked without price/time conditions and without solar, nothing is requested
      and every session flag is cleared. */
  lemma NoConditionsCycle(st: ControlState, o: Observation, now: int)
    requires Unblocked(o) && !PriceTimeMet(o) && !SolarAllowed(o)
    ensures var c := Cycle(st, o, now);
      && !c.state.shouldCharge && c.state.internalMode == Some(Manual)
      && !c.state.solarSessionActive && !c.state.priceTimeEligible && c.reason == NoConditionsMet
      && c.commands == (if o.status == StatusCharging then [PauseCharging] else [])
  {
  }

  // ----- Driving the charger -----

  /** When the main switch did not read "on", nothing is sent and the session is untouched. */
  lemma MainSwitchGuard(shouldCharge: bool, currentA: real, mode: Option<Mode>, session: Option<int>,
                        o: Observation, now: int)
    ensures ChargerControl(shouldCharge, currentA, mode, session, false, o, now) == Actuation([], session)
  {
  }

  /** Every current sent is max(0, x), where x is the hardware limit under price/time and
      min(requested, hardware limit) otherwise, so it lies in [0, max(0, hardware limit)]. */
  lemma SetCurrentBounded(shouldCharge: bool, currentA: real, mode: Option<Mode>, session: Option<int>,
                          mainSwitchOn: bool, o: Observation, now: int)
    ensures var a := ChargerControl(shouldCharge, currentA, mode, session, mainSwitchOn, o, now);
      forall c | c in a.commands && c.SetDynamicCurrent? ::
        && c.amps == Max(0.0, if mode == Some(PriceTime) then o.hwMaxA else Min(currentA, o.hwMaxA))
        && 0.0 <= c.amps <= Max(0.0, o.hwMaxA)
  {
  }

  /** Command choice when charging is requested: set-current (plus start under price/time)
      for a manual pause, the ready family, "paused", "completed" and "awaiting_start";
      set-current alone while charging, and only when the limit differs after rounding;
      nothing otherwise. Pause is never sent. The session is ended only by a disconnected
      status and is otherwise kept, or opened at `now`. */
  lemma ChargeRequestedCommands(currentA: real, mode: Option<Mode>, session: Option<int>, o: Observation, now: int)
    requires WellFormed(o)
    ensures var a := ChargerControl(true, currentA, mode, session, true, o, now);
      var toSet := CurrentToSet(currentA, mode, o.hwMaxA);
      var setCurrent := SetDynamicCurrent(Max(0.0, toSet));
      var start := if mode == Some(PriceTime) then [StartCharging] else [];
      && (o.manuallyPaused || IsResumableStatus(o.status) || o.status == StatusAwaitingStart ==>
            a.commands == [setCurrent] + start)
      && (!o.manuallyPaused && o.status == StatusCharging ==>
            a.commands == (if NeedsCurrentUpdate(o.dynamicLimitA, toSet) then [setCurrent] else []))
      && ((!o.manuallyPaused && !IsResumableStatus(o.status) && o.status != StatusAwaitingStart
           && o.status != StatusCharging) ==> a.commands == [])
      && PauseCharging !in a.commands
      && (StartCharging in a.commands ==> mode == Some(PriceTime))
      && (a.sessionStart.None? <==> IsDisconnectedStatus(o.status))
      && (session.Some? && !IsUnreachableStatus(o.status) ==> a.sessionStart == session)
      && (session.None? && !IsDisconnectedStatus(o.status) ==> a.sessionStart == Some(now))
  {
    var status := o.status;
    if IsUnreachableStatus(status) {
      assert !IsResumableStatus(status) && status != StatusAwaitingStart && status != StatusCharging;
    }
  }

  /** A charger already charging at the current the cycle wants is sent nothing. */
  lemma ChargingAtTargetSendsNothing(currentA: real, mode: Option<Mode>, session: Option<int>, o: Observation, now: int)
    requires o.status == StatusCharging && !o.manuallyPaused
    requires o.dynamicLimitA == Some(CurrentToSet(currentA, mode, o.hwMaxA))
    ensures ChargerControl(true, currentA, mode, session, true, o, now).commands == []
  {
  }

  /** The stop path: pause is sent exactly when the charger is charging, or paused
      outside manual mode, and that ends the session; otherwise the session survives
      only in "awaiting_start" and "paused"; an empty status ends it too. */
  lemma StopPathCommands(currentA: real, mode: Option<Mode>, session: Option<int>, o: Observation, now: int)
    ensures var a := ChargerControl(false, currentA, mode, session, true, o, now);
      var pause := o.status == StatusCharging || (o.status == StatusPaused && mode != Some(Manual));
      && a.commands == (if pause then [PauseCharging] else [])
      && (a.sessionStart.Some? <==> !pause && session.Some? && (o.status == StatusAwaitingStart || o.status == StatusPaused))
      && (a.sessionStart.Some? ==> a.sessionStart == session)
  {
  }

  /** A ready-family status does not keep a session when charging is not requested. */
  lemma ReadyStatusEndsSession(currentA: real, mode: Option<Mode>, session: Option<int>, o: Observation, now: int)
    requires IsReadyStatus(o.status)
    ensures ChargerControl(false, currentA, mode, session, true, o, now) == Actuation([], None)
  {
    assert o.status != StatusCharging && o.status != StatusPaused && o.status != StatusAwaitingStart;
  }

  /** The manual-pause branch sends what the "awaiting_start" branch below it would:
      detecting a manual pause changes no command. */
  lemma ManualPauseAddsNothing(shouldCharge: bool, currentA: real, mode: Option<Mode>, session: Option<int>,
                               mainSwitchOn: bool, o: Observation, now: int)
    requires WellFormed(o)
    ensures ChargerControl(shouldCharge, currentA, mode, session, mainSwitchOn, o, now)
         == ChargerControl(shouldCharge, currentA, mode, session, mainSwitchOn, o.(manuallyPaused := false), now)
  {
    if o.manuallyPaused {
      assert !IsResumableStatus(o.status) && o.status != StatusCharging;
    }
  }

  // ----- What every cycle leaves behind -----

  /** The relations between the control fields that hold after every cycle. */
  predicate Consistent(st: ControlState) {
    && st.internalMode.Some?
    && (st.priceTimeEligible <==> st.internalMode == Some(PriceTime))
    && (st.internalMode == Some(PriceTime) ==> st.shouldCharge && !st.solarSessionActive)
    && (st.internalMode == Some(SolarSurplus) ==> st.shouldCharge && st.solarSessionActive)
    && (st.internalMode == Some(Manual) && st.shouldCharge ==> st.targetCurrentA == 0.0 && st.solarSessionActive)
    && (st.shouldCharge ==> st.sessionStart.Some?)
  }

  /** From any state, one cycle leaves a consistent state: not charging means manual mode;
      the price/time flag is set exactly in price/time mode; charging in manual mode is
      the sticky solar pause at 0 A; and charging always has a session start. */
  lemma CycleEstablishesConsistency(st: ControlState, o: Observation, now: int)
    requires WellFormed(o)
    ensures Consistent(Cycle(st, o, now).state)
  {
    var (d, _) := Decision(st, o, now);
    if Unblocked(o) && !PriceTimeMet(o) && SolarAllowed(o) {
      var base := st.(shouldCharge := false, targetCurrentA := o.hwMaxA, internalMode := Some(Manual));
      SolarStickiness(base, CalculatedSolarCurrent(o.solarProductionW, o.solarBufferW), o.minSolarCurrentA, o.hwMaxA, false);
    }
    if d.shouldCharge {
      assert o.mainSwitchOn && !IsUnreachableStatus(o.status);
      ChargeRequestedCommands(d.targetCurrentA, d.internalMode, d.sessionStart, o, now);
    }
  }

  /** With a non-negative hardware limit, the target current of every cycle lies in [0, limit]. */
  lemma TargetWithinHardwareLimit(st: ControlState, o: Observation, now: int)
    requires o.hwMaxA >= 0.0
    ensures 0.0 <= Cycle(st, o, now).state.targetCurrentA <= o.hwMaxA
  {
    if Unblocked(o) && !PriceTimeMet(o) && SolarAllowed(o) {
      var base := st.(shouldCharge := false, targetCurrentA := o.hwMaxA, internalMode := Some(Manual));
      SolarStickiness(base, CalculatedSolarCurrent(o.solarProductionW, o.solarBufferW), o.minSolarCurrentA, o.hwMaxA, false);
    }
  }

  /** The solar current a cycle works with: the formula's value, negative read as 0. */
  function AvailableSolarCurrent(o: Observation): real {
    var calculated := CalculatedSolarCurrent(o.solarProductionW, o.solarBufferW);
    if calculated < 0 then 0.0 else calculated as real
  }

  /** A solar cycle in the solar branch. */
  predicate SolarCycleInput(o: Observation) {
    WellFormed(o) && Unblocked(o) && !PriceTimeMet(o) && SolarAllowed(o)
  }

  /** Solar charging, a dip below the minimum, and recovery form one session: during
      the dip charging stays requested at 0 A in manual mode, only a zero current is
      ever sent, and no pause or start; the session start survives the whole episode. */
  lemma StickySolarEpisode(st: ControlState, o1: Observation, o2: Observation, o3: Observation,
                           t1: int, t2: int, t3: int)
    requires SolarCycleInput(o1) && SolarCycleInput(o2) && SolarCycleInput(o3)
    requires AvailableSolarCurrent(o1) >= o1.minSolarCurrentA
    requires AvailableSolarCurrent(o2) < o2.minSolarCurrentA
    requires AvailableSolarCurrent(o3) >= o3.minSolarCurrentA
    ensures var c1 := Cycle(st, o1, t1);
      var c2 := Cycle(c1.state, o2, t2);
      var c3 := Cycle(c2.state, o3, t3);
      && ActiveControlMode(c1.state) == SolarSurplus && c1.state.sessionStart.Some?
      && ActiveControlMode(c2.state) == Manual && c2.state.shouldCharge && c2.state.targetCurrentA == 0.0
      && (forall c | c in c2.commands :: c == SetDynamicCurrent(0.0))
      && ActiveControlMode(c3.state) == SolarSurplus
      && c2.state.sessionStart == c1.state.sessionStart && c3.state.sessionStart == c1.state.sessionStart
  {
    var c1 := Cycle(st, o1, t1);
    SolarCycle(st, o1, t1);
    CycleEstablishesConsistency(st, o1, t1);
    var c2 := Cycle(c1.state, o2, t2);
    SolarCycle(c1.state, o2, t2);
    CycleEstablishesConsistency(c1.state, o2, t2);
    var (d2, _) := Decision(c1.state, o2, t2);
    ChargeRequestedCommands(d2.targetCurrentA, d2.internalMode, d2.sessionStart, o2, t2);
    SetCurrentBounded(true, d2.targetCurrentA, d2.internalMode, d2.sessionStart, true, o2, t2);
    var (d3, _) := Decision(c2.state, o3, t3);
    SolarCycle(c2.state, o3, t3);
    ChargeRequestedCommands(d3.targetCurrentA, d3.internalMode, d3.sessionStart, o3, t3);
  }

  // ----- Scenarios -----

  /** An idle, ready charger with 7000 W production and a 500 W buffer starts solar
      charging at floor(6500 / 690) = 9 A and is sent exactly that current. */
  lemma SolarStartScenario(st: ControlState, o: Observation, now: int)
    requires SolarCycleInput(o) && o.status == "ready_to_charge" && !st.solarSessionActive
    requires o.solarProductionW == 7000.0 && o.solarBufferW == 500.0
    requires o.minSolarCurrentA == 6.0 && o.hwMaxA == 16.0
    ensures var c := Cycle(st, o, now);
      && ActiveControlMode(c.state) == SolarSurplus && c.state.targetCurrentA == 9.0
      && c.commands == [SetDynamicCurrent(9.0)]
  {
    assert CalculatedSolarCurrent(7000.0, 500.0) == 9;
  }

  /** The same production with a 1500 W buffer while charging, with an unknown
      dynamic limit, gives floor(5500 / 690) = 7 A. */
  lemma SolarBufferScenario(st: ControlState, o: Observation, now: int)
    requires SolarCycleInput(o) && o.status == StatusCharging && o.dynamicLimitA.None?
    requires o.solarProductionW == 7000.0 && o.solarBufferW == 1500.0
    requires o.minSolarCurrentA == 6.0 && o.hwMaxA == 16.0
    ensures var c := Cycle(st, o, now);
      && ActiveControlMode(c.state) == SolarSurplus && c.commands == [SetDynamicCurrent(7.0)]
  {
    assert CalculatedSolarCurrent(7000.0, 1500.0) == 7;
  }

  /** A charger waiting to start under price/time is sent the hardware limit and a start. */
  lemma PriceTimeStartScenario(st: ControlState, o: Observation, now: int)
    requires WellFormed(o) && Unblocked(o) && PriceTimeMet(o)
    requires o.status == StatusAwaitingStart && o.hwMaxA == 16.0
    ensures Cycle(st, o, now).commands == [SetDynamicCurrent(16.0), StartCharging]
  {
  }

  /** A charger already charging at 16 A under price/time is sent nothing. */
  lemma PriceTimeSteadyScenario(st: ControlState, o: Observation, now: int)
    requires WellFormed(o) && Unblocked(o) && PriceTimeMet(o)
    requires o.status == StatusCharging && o.hwMaxA == 16.0 && o.dynamicLimitA == Some(16.0)
    ensures Cycle(st, o, now).commands == []
  {
  }
}
