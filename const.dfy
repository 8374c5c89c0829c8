/** Configuration keys, charger status strings, control-mode labels and the
    physical constants of the integration. */
module Const {

  const Domain := "smart_ev_charging"

  // Configuration keys.
  const ConfChargerDevice := "charger_device_id"
  const ConfStatusSensor := "status_sensor_id"
  const ConfPriceSensor := "price_sensor_id"
  const ConfTimeScheduleEntity := "time_schedule_entity_id"
  const ConfHousePowerSensor := "house_power_sensor_id"
  const ConfSolarProductionSensor := "solar_production_sensor_id"
  const ConfSolarScheduleEntity := "solar_schedule_entity_id"
  const ConfChargerMaxCurrentLimitSensor := "charger_max_current_limit_sensor_id"
  const ConfChargerDynamicCurrentSensor := "charger_dynamic_current_sensor_id"
  const ConfScanInterval := "scan_interval_seconds"
  const ConfChargerEnabledSwitchId := "charger_enabled_switch_id"
  const ConfEvSocSensor := "ev_soc_sensor_id"
  const ConfTargetSocLimit := "target_soc_limit"
  const ConfDebugLogging := "debug_logging_enabled"

  const DefaultScanIntervalSeconds := 30

  // Charger status strings (lower case).
  const StatusDisconnected: seq<string> := ["disconnected", "car_disconnected"]
  const StatusAwaitingStart := "awaiting_start"
  const StatusReadyToCharge: seq<string> := ["ready_to_charge", "charger_ready", "awaiting_schedule", "standby"]
  const StatusCharging := "charging"
  const StatusPaused := "paused"
  const StatusCompleted := "completed"
  const StatusError := "error"
  const StatusOffline := "offline"

  /** What a missing status sensor or state object reads as. */
  const StateUnknown := "unknown"
  const StateUnavailable := "unavailable"
  const StateOn := "on"

  // Control-mode labels shown to the user.
  const ControlModePriceTime := "PRIS_TID"
  const ControlModeSolarSurplus := "SOLENERGI"
  const ControlModeManual := "AV"

  // Physical constants.
  const MinChargeCurrentA: real := 6.0
  const MaxChargeCurrentAHwDefault: real := 16.0
  const PowerMarginW: real := 300.0
  const Phases := 3
  const VoltagePhaseNeutral := 230

  /** The maximum price used when none is set (or it reads as 0). */
  const NoMaxPrice: real := 999.0
}
