/** How the coordinator reads the host's data points: availability, numeric
    parsing, unit normalisation of price and power, on/off states, the charger
    status families, manual-pause detection and the refresh-trigger filter. */
module Readings {
  import opened Text
  import opened Const
  import opened PyValue

  /** What the host reports for one data point the coordinator may read. */
  datatype Reading =
    | Unconfigured                         // no entity id is configured for it
    | Missing                              // an id is configured, the host has no state object
    | Present(state: string, unit: string) // the state string; unit_of_measurement ("" when absent)

  predicate IsUnavailableState(s: string) {
    s == StateUnavailable || s == StateUnknown
  }

  /** A reading whose state may be parsed: present and neither "unavailable" nor "unknown". */
  predicate Readable(r: Reading) {
    r.Present? && !IsUnavailableState(r.state)
  }

  /** The number a reading carries, if any. */
  function ReadNumber(r: Reading): Option<real> {
    if Readable(r) then ParseFloat(r.state) else None
  }

  /** `_get_number_value(entity_id, default, is_config_key=False)`. */
  function NumberValue(r: Reading, default: Option<real>): (v: Option<real>)
    ensures !Readable(r) ==> v == default
    ensures Readable(r) && ParseFloat(r.state).Some? ==> v == ParseFloat(r.state)
    ensures Readable(r) && ParseFloat(r.state).None? ==> v == default
  {
    match ReadNumber(r)
    case Some(x) => Some(x)
    case None => default
  }

  /** A number reading with a fallback that is always used when nothing can be read. */
  function NumberOr(r: Reading, default: real): real {
    NumberValue(r, Some(default)).value
  }

  /** A price unit in hundredths of the currency per kWh ("öre/kWh", "SEK/100kWh"). */
  predicate IsHundredthUnit(unit: string) {
    Contains(Lower(unit), "öre") || Contains(Lower(unit), "/100kwh")
  }

  /** A price unit per MWh. */
  predicate IsMwhUnit(unit: string) {
    Contains(Lower(unit), "mwh")
  }

  /** `_get_spot_price_in_kr`: the spot price in currency per kWh. */
  function SpotPriceInKr(r: Reading): (p: Option<real>)
    ensures p.Some? <==> ReadNumber(r).Some?
    ensures p.Some? && IsHundredthUnit(r.unit) ==> 100.0 * p.value == ReadNumber(r).value
    ensures p.Some? && !IsHundredthUnit(r.unit) && IsMwhUnit(r.unit) ==> 1000.0 * p.value == ReadNumber(r).value
    ensures p.Some? && !IsHundredthUnit(r.unit) && !IsMwhUnit(r.unit) ==> p == ReadNumber(r)
  {
    match ReadNumber(r)
    case None => None
    case Some(x) =>
      Some(if IsHundredthUnit(r.unit) then x / 100.0 else if IsMwhUnit(r.unit) then x / 1000.0 else x)
  }

  /** `_get_power_value`: power in watts; only the unit "kw" (any case) is scaled. */
  function PowerValue(r: Reading): (w: Option<real>)
    ensures w.Some? <==> ReadNumber(r).Some?
    ensures w.Some? && Lower(r.unit) != "kw" ==> w == ReadNumber(r)
    ensures w.Some? && Lower(r.unit) == "kw" ==> w.value == 1000.0 * ReadNumber(r).value
  {
    match ReadNumber(r)
    case None => None
    case Some(x) => Some(if Lower(r.unit) == "kw" then x * 1000.0 else x)
  }

  /** `hass.states.is_state(entity_id, "on")`. */
  predicate IsOn(r: Reading) {
    r.Present? && r.state == StateOn
  }

  /** A schedule entity: active when it reads "on"; an unconfigured one counts as active. */
  predicate ScheduleActive(r: Reading) {
    if r.Unconfigured? then true else IsOn(r)
  }

  /** The charger's main switch: on when it reads "on", and also when it has no state at all. */
  predicate MainSwitchOn(r: Reading) {
    if r.Present? then r.state == StateOn else true
  }

  /** The lower-cased charger status; "unknown" when there is no state to read. */
  function ChargerStatus(r: Reading): string {
    if r.Present? then Lower(r.state) else StateUnknown
  }

  predicate IsDisconnectedStatus(status: string) {
    status in StatusDisconnected
  }

  predicate IsReadyStatus(status: string) {
    status in StatusReadyToCharge
  }

  /** Disconnected family or offline: the charger cannot be driven. */
  predicate IsUnreachableStatus(status: string) {
    IsDisconnectedStatus(status) || status == StatusOffline
  }

  /** The dynamic current limit the charger currently applies, if known. */
  function DynamicLimit(r: Reading): Option<real> {
    NumberValue(r, None)
  }

  /** `_is_manually_paused`: paused from the charger's own app. Both sensors must be
      configured, the status must be "awaiting_start" and the dynamic limit exactly 0. */
  predicate IsManuallyPaused(status: Reading, dynamicLimit: Reading) {
    if status.Unconfigured? || dynamicLimit.Unconfigured? then false
    else ChargerStatus(status) == StatusAwaitingStart && DynamicLimit(dynamicLimit) == Some(0.0)
  }

  /** The refresh filter of `_handle_external_state_change`: a missing state counts
      as the string "None"; an unchanged value triggers no refresh, except for the
      status sensor. */
  predicate ShouldRefresh(entityId: Option<string>, oldState: Option<string>, newState: Option<string>,
                          statusSensorId: Option<string>)
  {
    var oldValue, newValue := oldState.GetOr("None"), newState.GetOr("None");
    !(oldValue == newValue && entityId != statusSensorId)
  }

  // ----- Properties -----

  /** A refresh is requested exactly when the state value changed or the entity is the status sensor. */
  lemma RefreshFilter(entityId: Option<string>, oldState: Option<string>, newState: Option<string>,
                      statusSensorId: Option<string>)
    ensures entityId == statusSensorId ==> ShouldRefresh(entityId, oldState, newState, statusSensorId)
    ensures entityId != statusSensorId && oldState == newState ==> !ShouldRefresh(entityId, oldState, newState, statusSensorId)
    ensures oldState.GetOr("None") != newState.GetOr("None") ==> ShouldRefresh(entityId, oldState, newState, statusSensorId)
  {
  }

  /** A state object appearing with the literal state "None" looks unchanged to the filter. */
  lemma MissingStateLooksLikeNoneString(entityId: Option<string>, statusSensorId: Option<string>)
    requires entityId != statusSensorId
    ensures !ShouldRefresh(entityId, None, Some("None"), statusSensorId)
  {
  }

  /** Manual pause is only ever seen on a present "awaiting_start" status with a dynamic limit reading 0. */
  lemma ManualPauseSignature(status: Reading, dynamicLimit: Reading)
    requires IsManuallyPaused(status, dynamicLimit)
    ensures status.Present? && Lower(status.state) == StatusAwaitingStart
    ensures Readable(dynamicLimit) && ParseFloat(dynamicLimit.state) == Some(0.0)
  {
  }

  /** The placeholder states carry no number. */
  lemma PlaceholdersAreNotNumbers()
    ensures ParseFloat(StateUnavailable).None? && ParseFloat(StateUnknown).None?
  {
    UnavailableIsNotNumber();
    UnknownIsNotNumber();
  }

  lemma UnavailableIsNotNumber()
    ensures ParseFloat(StateUnavailable).None?
  {
    NotNumeric(StateUnavailable);
  }

  lemma UnknownIsNotNumber()
    ensures ParseFloat(StateUnknown).None?
  {
    NotNumeric(StateUnknown);
  }

  /** A state that parses as a number is read as that number, whatever its unit. */
  lemma NumericStateIsRead(s: string, unit: string)
    requires ParseFloat(s).Some?
    ensures ReadNumber(Present(s, unit)) == ParseFloat(s)
  {
    PlaceholdersAreNotNumbers();
  }

  lemma LowerUnitNames()
    ensures Lower("öre/kWh") == "öre/kwh" && Lower("SEK/kWh") == "sek/kwh"
    ensures Lower("EUR/MWh") == "eur/mwh" && Lower("EUR/kWh") == "eur/kwh"
  {
  }

  lemma UnitNameSubstrings()
    ensures Contains("öre/kwh", "öre")
    ensures !Contains("sek/kwh", "öre") && !Contains("sek/kwh", "/100kwh") && !Contains("sek/kwh", "mwh")
    ensures !Contains("eur/kwh", "öre") && !Contains("eur/kwh", "/100kwh") && !Contains("eur/kwh", "mwh")
    ensures !Contains("eur/mwh", "öre") && !Contains("eur/mwh", "/100kwh") && Contains("eur/mwh", "mwh")
  {
    assert OccursAt("öre/kwh", "öre", 0);
    NotContainsWithoutChar("sek/kwh", "öre", 0);
    NotContainsWithoutChar("sek/kwh", "/100kwh", 1);
    NotContainsWithoutChar("sek/kwh", "mwh", 0);
    NotContainsWithoutChar("eur/kwh", "öre", 0);
    NotContainsWithoutChar("eur/kwh", "/100kwh", 1);
    NotContainsWithoutChar("eur/kwh", "mwh", 0);
    NotContainsWithoutChar("eur/mwh", "öre", 0);
    NotContainsWithoutChar("eur/mwh", "/100kwh", 1);
    assert OccursAt("eur/mwh", "mwh", 4);
  }

  /** How the price units of common spot-price sensors are classified. */
  lemma PriceUnitClasses()
    ensures IsHundredthUnit("öre/kWh")
    ensures !IsHundredthUnit("SEK/kWh") && !IsMwhUnit("SEK/kWh")
    ensures !IsHundredthUnit("EUR/kWh") && !IsMwhUnit("EUR/kWh")
    ensures !IsHundredthUnit("EUR/MWh") && IsMwhUnit("EUR/MWh")
  {
    LowerUnitNames();
    UnitNameSubstrings();
  }

  /** The same state reads as 1/100 of the price in öre as in kronor. */
  lemma OreAndKronaPrices(s: string)
    requires ParseFloat(s).Some?
    ensures SpotPriceInKr(Present(s, "SEK/kWh")) == ParseFloat(s)
    ensures SpotPriceInKr(Present(s, "öre/kWh")) == Some(ParseFloat(s).value / 100.0)
  {
    PriceUnitClasses();
    NumericStateIsRead(s, "SEK/kWh");
    NumericStateIsRead(s, "öre/kWh");
  }

  /** The same state reads as 1/1000 of the price per MWh as per kWh. */
  lemma MwhAndKwhPrices(s: string)
    requires ParseFloat(s).Some?
    ensures SpotPriceInKr(Present(s, "EUR/kWh")) == ParseFloat(s)
    ensures SpotPriceInKr(Present(s, "EUR/MWh")) == Some(ParseFloat(s).value / 1000.0)
  {
    PriceUnitClasses();
    NumericStateIsRead(s, "EUR/kWh");
    NumericStateIsRead(s, "EUR/MWh");
  }

  /** A power reading in "kW" is scaled to watts, one in "W" is taken as it is. */
  lemma PowerUnits(s: string)
    requires ParseFloat(s).Some?
    ensures PowerValue(Present(s, "kW")) == Some(1000.0 * ParseFloat(s).value)
    ensures PowerValue(Present(s, "W")) == ParseFloat(s)
  {
    NumericStateIsRead(s, "kW");
    NumericStateIsRead(s, "W");
    assert Lower("kW") == "kw";
    assert Lower("W") == "w";
  }
}
