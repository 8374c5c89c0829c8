/** The coordinator object: its control fields, updated step by step by one
    polling cycle, and the ordered series of service calls it sends to the
    charger. Each method is tied to the pure definition of the same step in
    `Engine`. */
module Coordinator {
  import opened Text
  import opened Const
  import opened Readings
  import opened Engine

  /** The dictionary a cycle returns for the sensors. */
  datatype CoordinatorData =
    | Current(activeControlMode: Mode, shouldChargeReason: Reason, sessionStartTimeUtc: Option<int>)
    | AwaitingEntities  // manual mode, "waiting for internal entities", no session key

  class SmartEVChargingCoordinator {
    var updateIntervalSeconds: int
    var activeControlMode: Mode
    var shouldChargeFlag: bool
    var targetChargeCurrentA: real
    var activeControlModeInternal: Option<Mode>
    var chargerMainSwitchState: bool
    var lastUpdateTime: int
    var sessionStartTimeUtc: Option<int>
    var solarSessionActive: bool
    var priceTimeEligibleForCharging: bool
    var internalEntitiesResolved: bool
    /** The result the host stored after the last refresh. */
    var data: Option<CoordinatorData>
    /** Every service call sent to the charger, oldest first. */
    var sentCommands: seq<Command>

    /** The fields that carry over from one cycle to the next. */
    function Control(): ControlState
      reads this
    {
      ControlState(shouldChargeFlag, targetChargeCurrentA, activeControlModeInternal,
                   sessionStartTimeUtc, solarSessionActive, priceTimeEligibleForCharging)
    }

    constructor(scanIntervalSeconds: int, now: int)
      ensures Control() == InitialState
      ensures updateIntervalSeconds == scanIntervalSeconds && lastUpdateTime == now
      ensures activeControlMode == Manual && chargerMainSwitchState && !internalEntitiesResolved
      ensures data.None? && sentCommands == []
    {
      updateIntervalSeconds := scanIntervalSeconds;
      activeControlMode := Manual;
      shouldChargeFlag := false;
      targetChargeCurrentA := MinChargeCurrentA;
      activeControlModeInternal := None;
      chargerMainSwitchState := true;
      lastUpdateTime := now;
      sessionStartTimeUtc := None;
      solarSessionActive := false;
      priceTimeEligibleForCharging := false;
      internalEntitiesResolved := false;
      data := None;
      sentCommands := [];
    }

    /** `_reset_session_data`. */
    method ResetSessionData()
      modifies this`sessionStartTimeUtc
      ensures sessionStartTimeUtc.None?
    {
      sessionStartTimeUtc := None;
    }

    /** One service call to the charger. */
    method Send(c: Command)
      modifies this`sentCommands
      ensures sentCommands == old(sentCommands) + [c]
    {
      sentCommands := sentCommands + [c];
    }

    /** `_calculate_solar_charging_action`. */
    method CalculateSolarChargingAction(calculatedA: int, minimumA: real, hwMaxA: real, priceTimeMet: bool)
      returns (reason: Reason)
      modifies this`activeControlModeInternal, this`shouldChargeFlag, this`targetChargeCurrentA,
               this`sessionStartTimeUtc, this`solarSessionActive, this`priceTimeEligibleForCharging
      ensures (Control(), reason) == SolarAction(old(Control()), calculatedA, minimumA, hwMaxA, priceTimeMet)
    {
      var available := Max(0.0, calculatedA as real);
      if available >= minimumA {
        activeControlModeInternal := Some(SolarSurplus);
        shouldChargeFlag := true;
        targetChargeCurrentA := Min(available, hwMaxA);
        reason := SolarCharging(available, minimumA, targetChargeCurrentA);
        if !solarSessionActive {
          if sessionStartTimeUtc.None? || priceTimeEligibleForCharging {
            ResetSessionData();
          }
        }
        solarSessionActive := true;
      } else if solarSessionActive && available < minimumA {
        activeControlModeInternal := Some(Manual);
        shouldChargeFlag := true;
        targetChargeCurrentA := 0.0;
        reason := SolarPaused(available, minimumA);
      } else {
        activeControlModeInternal := Some(Manual);
        shouldChargeFlag := false;
        reason := SolarSurplusTooLow(available, minimumA);
        solarSessionActive := false;
      }
      if activeControlModeInternal == Some(SolarSurplus)
        || (activeControlModeInternal == Some(Manual) && !priceTimeMet)
      {
        priceTimeEligibleForCharging := false;
      }
    }

    /** `_control_charger`: drives the charger from the live readings in `o`. */
    method ControlCharger(shouldCharge: bool, currentA: real, o: Observation, now: int)
      modifies this`sessionStartTimeUtc, this`sentCommands
      ensures var a := ChargerControl(shouldCharge, currentA, activeControlModeInternal,
                                      old(sessionStartTimeUtc), chargerMainSwitchState, o, now);
        sentCommands == old(sentCommands) + a.commands && sessionStartTimeUtc == a.sessionStart
    {
      if !chargerMainSwitchState {
        return;
      }
      var status := o.status;
      var current := Min(currentA, o.hwMaxA);
      if shouldCharge {
        var toSet := if activeControlModeInternal == Some(PriceTime) then o.hwMaxA else current;
        var needsUpdate := NeedsCurrentUpdate(o.dynamicLimitA, toSet);
        var isPausedManually := o.manuallyPaused;
        if isPausedManually {
          Send(SetDynamicCurrent(Max(0.0, toSet)));
          if activeControlModeInternal == Some(PriceTime) {
            Send(StartCharging);
          }
        } else if IsResumableStatus(status) {
          Send(SetDynamicCurrent(Max(0.0, toSet)));
          if activeControlModeInternal == Some(PriceTime) {
            Send(StartCharging);
          }
        } else if status == StatusCharging {
          if needsUpdate {
            Send(SetDynamicCurrent(Max(0.0, toSet)));
          }
        } else if status == StatusAwaitingStart && !isPausedManually {
          Send(SetDynamicCurrent(Max(0.0, toSet)));
          if activeControlModeInternal == Some(PriceTime) {
            Send(StartCharging);
          }
        } else if IsUnreachableStatus(status) {
          if sessionStartTimeUtc.Some? {
            ResetSessionData();
          }
        }
        if sessionStartTimeUtc.None? && !IsDisconnectedStatus(status) {
          sessionStartTimeUtc := Some(now);
        }
      } else {
        if status == StatusCharging || (status == StatusPaused && activeControlModeInternal != Some(Manual)) {
          Send(PauseCharging);
          if sessionStartTimeUtc.Some? {
            ResetSessionData();
          }
        } else if sessionStartTimeUtc.Some? && !(status == StatusAwaitingStart || status == StatusPaused) {
          ResetSessionData();
        }
      }
    }

    /** `_current_coordinator_data`. */
    function CurrentCoordinatorData(reason: Reason): CoordinatorData
      reads this
    {
      Current(activeControlMode, reason, sessionStartTimeUtc)
    }

    /** The decision part of `_async_update_data`, on the values read from the host:
        the blocking checks in order, then price/time, then solar, then nothing. */
    method Decide(o: Observation, now: int) returns (reason: Reason)
      requires chargerMainSwitchState == o.mainSwitchOn
      modifies this`activeControlModeInternal, this`shouldChargeFlag, this`targetChargeCurrentA,
               this`sessionStartTimeUtc, this`solarSessionActive, this`priceTimeEligibleForCharging
      ensures (Control(), reason) == Decision(old(Control()), o, now)
    {
      shouldChargeFlag := false;
      targetChargeCurrentA := o.hwMaxA;
      activeControlModeInternal := Some(Manual);
      if IsUnreachableStatus(o.status) {
        reason := ChargerUnreachable(o.status);
        if sessionStartTimeUtc.Some? {
          ResetSessionData();
        }
        priceTimeEligibleForCharging := false;
      } else if !chargerMainSwitchState {
        reason := MainSwitchOff;
        if sessionStartTimeUtc.Some? {
          ResetSessionData();
        }
        solarSessionActive := false;
        priceTimeEligibleForCharging := false;
      } else if o.soc.Some? && o.targetSocLimit.Some? && o.soc.value >= o.targetSocLimit.value {
        reason := SocLimitReached(o.soc.value, o.targetSocLimit.value);
        if sessionStartTimeUtc.Some? {
          ResetSessionData();
        }
        solarSessionActive := false;
        priceTimeEligibleForCharging := false;
      } else {
        var priceTimeMet := false;
        if o.smartEnabled {
          var priceOk := o.price.Some? && o.price.value <= o.maxPrice;
          if priceOk && o.timeScheduleActive {
            priceTimeMet := true;
          }
        }
        if priceTimeMet {
          activeControlModeInternal := Some(PriceTime);
          shouldChargeFlag := true;
          targetChargeCurrentA := o.hwMaxA;
          reason := PriceTimeCharging(o.price.value, o.maxPrice);
          solarSessionActive := false;
          if sessionStartTimeUtc.None? || !priceTimeEligibleForCharging {
            if sessionStartTimeUtc.Some? {
              ResetSessionData();
            }
            sessionStartTimeUtc := Some(now);
          }
          priceTimeEligibleForCharging := true;
        } else if o.solarEnabled && o.solarScheduleActive {
          var calculated := CalculatedSolarCurrent(o.solarProductionW, o.solarBufferW);
          reason := CalculateSolarChargingAction(calculated, o.minSolarCurrentA, o.hwMaxA, priceTimeMet);
        } else {
          reason := NoConditionsMet;
          if sessionStartTimeUtc.Some? {
            ResetSessionData();
          }
          solarSessionActive := false;
          priceTimeEligibleForCharging := false;
        }
      }
    }

    /** The part of `_async_update_data` after the internal entities are resolved:
        decide, drive the charger, publish the mode, return the sensor data. */
    method RunCycle(o: Observation, now: int) returns (result: CoordinatorData)
      modifies this`chargerMainSwitchState, this`activeControlModeInternal, this`shouldChargeFlag,
               this`targetChargeCurrentA, this`sessionStartTimeUtc, this`solarSessionActive,
               this`priceTimeEligibleForCharging, this`sentCommands, this`activeControlMode, this`lastUpdateTime
      ensures var c := Cycle(old(Control()), o, now);
        && Control() == c.state
        && chargerMainSwitchState == o.mainSwitchOn
        && sentCommands == old(sentCommands) + c.commands
        && activeControlMode == ActiveControlMode(c.state)
        && lastUpdateTime == now
        && result == Current(ActiveControlMode(c.state), c.reason, c.state.sessionStart)
    {
      ghost var st := Control();
      ghost var commands := sentCommands;
      chargerMainSwitchState := o.mainSwitchOn;
      var reason := Decide(o, now);
      ghost var d := Control();
      assert (d, reason) == Decision(st, o, now);
      ControlCharger(shouldChargeFlag, targetChargeCurrentA, o, now);
      ghost var a := ChargerControl(d.shouldCharge, d.targetCurrentA, d.internalMode, d.sessionStart, o.mainSwitchOn, o, now);
      assert sentCommands == commands + a.commands && sessionStartTimeUtc == a.sessionStart;
      activeControlMode := activeControlModeInternal.GetOr(Manual);
      lastUpdateTime := now;
      result := CurrentCoordinatorData(reason);
    }

    /** `_async_update_data`: one polling cycle. `resolveSucceeds` is what resolving
        the five internal entities yields when they are not yet resolved; until they
        are, the cycle returns the stored data and changes nothing. */
    method UpdateData(s: Snapshot, resolveSucceeds: bool, now: int) returns (result: CoordinatorData)
      modifies this
      ensures !old(internalEntitiesResolved) && !resolveSucceeds ==>
        && result == old(data).GetOr(AwaitingEntities)
        && unchanged(this)
      ensures old(internalEntitiesResolved) || resolveSucceeds ==>
        var o := Observe(s);
        var c := Cycle(old(Control()), o, now);
        && internalEntitiesResolved
        && Control() == c.state
        && chargerMainSwitchState == o.mainSwitchOn
        && sentCommands == old(sentCommands) + c.commands
        && activeControlMode == ActiveControlMode(c.state)
        && lastUpdateTime == now
        && result == Current(ActiveControlMode(c.state), c.reason, c.state.sessionStart)
        && data == old(data) && updateIntervalSeconds == old(updateIntervalSeconds)
    {
      if !internalEntitiesResolved {
        if !resolveSucceeds {
          result := if data.Some? then data.value else AwaitingEntities;
          return;
        }
        internalEntitiesResolved := true;
      }
      var o := Observe(s);
      result := RunCycle(o, now);
    }

    /** The host's refresh: run one cycle and store what it returns. */
    method Refresh(s: Snapshot, resolveSucceeds: bool, now: int)
      modifies this
      ensures !old(internalEntitiesResolved) && !resolveSucceeds ==>
        data == Some(old(data).GetOr(AwaitingEntities)) && Control() == old(Control())
        && sentCommands == old(sentCommands)
      ensures old(internalEntitiesResolved) || resolveSucceeds ==>
        var c := Cycle(old(Control()), Observe(s), now);
        && Control() == c.state && sentCommands == old(sentCommands) + c.commands
        && data == Some(Current(ActiveControlMode(c.state), c.reason, c.state.sessionStart))
    {
      var result := UpdateData(s, resolveSucceeds, now);
      data := Some(result);
    }
  }
}
