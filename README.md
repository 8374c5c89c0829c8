# Smart EV Charging — a verified model of the charging coordinator

Smart EV Charging runs inside Home Assistant and drives an Easee wall charger. On every polling
cycle its coordinator reads the charger status, the main switch, the spot price, the schedules,
solar production and the user's own switches and numbers. It then decides whether to charge by
price and time, by solar surplus, or not at all, and sends the charger a dynamic current limit
and start/pause commands. The configuration forms validate what the user enters before it is
stored. Setup turns the stored configuration into the polling interval.

The model has these parts:

- `text.dfy` (`Text`) holds an `Option` type, `lower()`, `strip()` and substring search.
- `pyvalue.dfy` (`PyValue`) models a form/configuration value, Python's `int()` and `float()` on
  such values (a decimal parser for strings) and the two dictionary idioms the source uses.
- `const.dfy` (`Const`) holds the configuration keys, the charger status strings and the
  physical constants.
- `readings.dfy` (`Readings`) models how one data point is read. It covers availability, numeric
  parsing with fallbacks, price and power unit normalisation, on/off states, the charger status
  families, manual-pause detection and the filter that decides whether a state change triggers
  a refresh.
- `engine.dfy` (`Engine`) is one cycle as pure functions:
  - `Observe` turns a snapshot of the host's readings into the values the cycle uses;
  - `Decision` is the blocking precedence, the price/time branch and the solar sub-machine;
  - `ChargerControl` chooses the commands sent to the charger;
  - `Cycle` composes the two.
- `engine_properties.dfy` (`EngineProperties`) states what the cycle promises, as lemmas over
  all inputs.
- `coordinator.dfy` (`Coordinator`) is the coordinator object. It has the source's fields, and
  its methods update them step by step. Every method is proved equal to the matching `Engine`
  function. Commands sent to the charger are appended to `sentCommands`.
- `config_flow.dfy` (`ConfigFlow`) covers the key lists, the validation loop both forms run,
  the two form steps and their properties.
- `setup.dfy` (`Setup`) covers scan-interval resolution, and the per-entry slot of the host data
  that a failed first refresh removes again.

Time is an integer timestamp passed in as `now`. Every reading the host would supply is a
parameter: the `Snapshot` of one cycle and the submitted forms. The outcome of resolving the
internal entities is a parameter too, and so is the outcome of the first refresh.

A manual pause is detected only on an "awaiting_start" status with a dynamic limit of 0. That
status makes the fourth branch of `_control_charger` send the same commands, so detecting a
manual pause never changes what is sent (`ManualPauseAddsNothing`).

## Model

| member | source | states |
|---|---|---|
| PyValue.TruncToInt | custom_components/smart_ev_charging/__init__.py:72 | `int()` of a number truncates toward zero: the result is within 1 of the value, on the side of zero |
| PyValue.ParseIntOfIntToString | custom_components/smart_ev_charging/config_flow.py:423 | `int()` reads back every integer written in decimal, with or without a sign |
| PyValue.MergeDicts | custom_components/smart_ev_charging/__init__.py:49 | merging data with options keeps every key of both, and options win for keys in both |
| Readings.NumberValue | custom_components/smart_ev_charging/coordinator.py:338-383 | a reading that is present, not "unavailable"/"unknown" and parses as a number gives that number; every other reading gives the default |
| Readings.SpotPriceInKr | custom_components/smart_ev_charging/coordinator.py:385-407 | a price exists exactly when the state parses; öre and "/100kWh" units divide it by 100, otherwise MWh units divide it by 1000, otherwise it is kept |
| Readings.PowerValue | custom_components/smart_ev_charging/coordinator.py:409-439 | a power exists exactly when the state parses; only the unit "kw" (any case) multiplies it by 1000 |
| Readings.ShouldRefresh | custom_components/smart_ev_charging/coordinator.py:320-336 | the dedup test of a state-change event: refresh unless the value is unchanged and the entity is not the status sensor; a missing state reads as "None"; its consequences are `Readings.RefreshFilter` and `Readings.MissingStateLooksLikeNoneString` |
| Readings.RefreshFilter | custom_components/smart_ev_charging/coordinator.py:320-336 | the status sensor always triggers a refresh, another entity with an unchanged value never does, and a changed value always does |
| Readings.MissingStateLooksLikeNoneString | custom_components/smart_ev_charging/coordinator.py:324-329 | a state object appearing with the literal state "None" is not seen as a change |
| Readings.IsManuallyPaused | custom_components/smart_ev_charging/coordinator.py:1363-1390 | `_is_manually_paused`: false when either sensor is not configured, else the status is "awaiting_start" and the dynamic limit reads exactly 0; its consequence is `Readings.ManualPauseSignature` |
| Readings.ManualPauseSignature | custom_components/smart_ev_charging/coordinator.py:1363-1390 | a manual pause implies a present "awaiting_start" status and a dynamic limit that reads exactly 0 |
| Readings.PlaceholdersAreNotNumbers | custom_components/smart_ev_charging/coordinator.py:369-374 | "unavailable" and "unknown" never parse as numbers |
| Readings.NumericStateIsRead | custom_components/smart_ev_charging/coordinator.py:375-376 | a state that parses is read as that number, whatever its unit |
| Readings.PriceUnitClasses | custom_components/smart_ev_charging/coordinator.py:395-399 | "öre/kWh" is a hundredth unit, "EUR/MWh" a MWh unit, and "SEK/kWh" and "EUR/kWh" are neither |
| Readings.OreAndKronaPrices | custom_components/smart_ev_charging/coordinator.py:394-400 | the same state reads as itself in SEK/kWh and as a hundredth of itself in öre/kWh |
| Readings.MwhAndKwhPrices | custom_components/smart_ev_charging/coordinator.py:394-400 | the same state reads as itself in EUR/kWh and as a thousandth of itself in EUR/MWh |
| Readings.PowerUnits | custom_components/smart_ev_charging/coordinator.py:421-428 | "kW" is scaled to watts and "W" is taken as it is |
| Engine.MaxAcceptedPrice | custom_components/smart_ev_charging/coordinator.py:1031-1038 | the maximum price is never 0: the number read when it is not 0, and 999 otherwise |
| Engine.CalculatedSolarCurrent | custom_components/smart_ev_charging/coordinator.py:1255-1258 | the solar current is the largest whole number of amperes whose 690 W per ampere fits the surplus |
| Engine.Observe | custom_components/smart_ev_charging/coordinator.py:971-1135 | every observation is well formed (a manual pause only in "awaiting_start" at 0 A, a maximum price that is not 0); the main switch is on exactly when it has no state or reads "on"; the status is "unknown" unless the sensor has a state |
| Engine.RoundHalfEven | custom_components/smart_ev_charging/coordinator.py:630-634 | `round()` gives the nearest integer, and the even one on a tie |
| Engine.Round1 | custom_components/smart_ev_charging/coordinator.py:630-634 | `round(x, 1)` is a multiple of 0.1 within 0.05 of `x`, and on a tie it is the even multiple |
| Engine.SolarAction | custom_components/smart_ev_charging/coordinator.py:117-216 | `_calculate_solar_charging_action` on values: the three solar cases (start, continue inside a session, stop); its consequences are `EngineProperties.SolarStickiness` and `EngineProperties.StickySolarEpisode` |
| Engine.Decision | custom_components/smart_ev_charging/coordinator.py:1137-1316 | the decision part of `_async_update_data`, in the source's order of precedence: unreachable charger, main switch off, state of charge at the limit, price/time, solar, none; its consequences are the blocking, gating and consistency lemmas of `EngineProperties` |
| Engine.ChargerControl | custom_components/smart_ev_charging/coordinator.py:452-930 | `_control_charger` on values: the commands sent and the session start left behind; its consequences are `EngineProperties.MainSwitchGuard`, `ChargeRequestedCommands`, `StopPathCommands` and `SetCurrentBounded` |
| Engine.Cycle | custom_components/smart_ev_charging/coordinator.py:1137-1345 | one update cycle: the decision, then `_control_charger` with its result; its consequence is `EngineProperties.CycleEstablishesConsistency` and the scenario lemmas |
| Engine.Round1OfTenth | custom_components/smart_ev_charging/coordinator.py:630-634 | a current that is already a multiple of 0.1 rounds to itself |
| EngineProperties.UnreachableChargerBlocks | custom_components/smart_ev_charging/coordinator.py:1149-1165 | a disconnected or offline charger gives manual mode, no charging, no session, no price/time flag and no command; the solar flag is left as it was |
| EngineProperties.MainSwitchOffBlocks | custom_components/smart_ev_charging/coordinator.py:1167-1176 | next in precedence, a main switch that is off clears charging, session and both flags, and nothing is sent |
| EngineProperties.SocLimitBlocks | custom_components/smart_ev_charging/coordinator.py:1178-1195 | next, a state of charge at or above the limit clears everything and sends only a pause, and only to a charging charger |
| EngineProperties.PriceTimeGating | custom_components/smart_ev_charging/coordinator.py:1197-1250 | when nothing blocks, the mode is price/time exactly when smart charging is on, the price is known and at most the maximum, and the schedule is on; it then charges at the hardware limit, opens a session unless the previous cycle was price/time, and sets the price/time flag |
| EngineProperties.ExpensivePriceNeverPriceTime | custom_components/smart_ev_charging/coordinator.py:1203-1211 | a known price above the maximum never gives price/time mode |
| EngineProperties.UnsetMaxPriceIs999 | custom_components/smart_ev_charging/coordinator.py:1031-1038 | a maximum price that cannot be read, or reads 0, becomes 999 |
| EngineProperties.SolarStickiness | custom_components/smart_ev_charging/coordinator.py:117-216 | the solar sub-machine's three cases: enough current charges at min(current, hardware limit); too little while a solar session runs keeps charging at exactly 0 A with the session kept; too little otherwise requests nothing; the price/time flag ends cleared |
| EngineProperties.SolarCycle | custom_components/smart_ev_charging/coordinator.py:1253-1267 | the solar branch runs only when nothing blocks, price/time is not met and solar is allowed; it uses production minus buffer only, and a negative current counts as 0 |
| EngineProperties.NoConditionsCycle | custom_components/smart_ev_charging/coordinator.py:1304-1316 | with no branch applicable nothing is requested, every flag is cleared, and only a charging charger is paused |
| EngineProperties.MainSwitchGuard | custom_components/smart_ev_charging/coordinator.py:455-462 | when the main switch was off, the charger is sent nothing and the session is untouched |
| EngineProperties.SetCurrentBounded | custom_components/smart_ev_charging/coordinator.py:577-629 | every current sent is max(0, x), where x is the hardware limit under price/time and otherwise min(requested, hardware limit) |
| EngineProperties.ChargeRequestedCommands | custom_components/smart_ev_charging/coordinator.py:575-783 | with charging requested: set-current plus start (under price/time) for a manual pause, the ready statuses, "paused", "completed" and "awaiting_start"; set-current alone while charging, only if the rounded limit differs; nothing otherwise; never a pause; the session ends only for a disconnected status and is otherwise kept or opened at `now` |
| EngineProperties.ChargingAtTargetSendsNothing | custom_components/smart_ev_charging/coordinator.py:716-731 | a charger already charging at the wanted current is sent nothing |
| EngineProperties.StopPathCommands | custom_components/smart_ev_charging/coordinator.py:872-930 | with charging not requested, a pause is sent exactly when the charger is charging, or paused outside manual mode, which ends the session; otherwise the session survives only in "awaiting_start" or "paused", so a ready-family status and an empty status both end it |
| EngineProperties.ReadyStatusEndsSession | custom_components/smart_ev_charging/coordinator.py:909-930 | a ready status with charging not requested ends the session and sends nothing |
| EngineProperties.ManualPauseAddsNothing | custom_components/smart_ev_charging/coordinator.py:690-749 | the manual-pause branch sends what the "awaiting_start" branch would |
| EngineProperties.CycleEstablishesConsistency | custom_components/smart_ev_charging/coordinator.py:1137-1321 | after any cycle: the price/time flag is set exactly in price/time mode; price/time and solar mode request charging; charging in manual mode is the 0 A solar pause; requested charging always has a session start |
| EngineProperties.TargetWithinHardwareLimit | custom_components/smart_ev_charging/coordinator.py:1137-1267 | with a non-negative hardware limit, every cycle's target current lies between 0 and the limit |
| EngineProperties.StickySolarEpisode | custom_components/smart_ev_charging/coordinator.py:170-187 | solar charging, then a dip below the minimum, then recovery form one session: during the dip only 0 A is sent, with no pause and no start, and the session start survives |
| EngineProperties.SolarStartScenario | custom_components/smart_ev_charging/coordinator.py:1253-1267 | 7000 W production with a 500 W buffer starts solar charging at 9 A on a ready charger, and exactly that current is sent |
| EngineProperties.SolarBufferScenario | custom_components/smart_ev_charging/coordinator.py:1253-1267 | with a 1500 W buffer the same production gives 7 A |
| EngineProperties.PriceTimeStartScenario | custom_components/smart_ev_charging/coordinator.py:733-749 | a charger awaiting start under price/time is sent the hardware limit, then a start |
| EngineProperties.PriceTimeSteadyScenario | custom_components/smart_ev_charging/coordinator.py:716-731 | a charger already charging at 16 A under price/time is sent nothing |
| Coordinator.SmartEVChargingCoordinator.constructor | custom_components/smart_ev_charging/coordinator.py:71-110 | a new coordinator has the initial control state (manual, not charging, 6 A, no session, both flags clear) and the given interval |
| Coordinator.SmartEVChargingCoordinator.ResetSessionData | custom_components/smart_ev_charging/coordinator.py:441-443 | the session start is cleared and nothing else changes |
| Coordinator.SmartEVChargingCoordinator.CalculateSolarChargingAction | custom_components/smart_ev_charging/coordinator.py:117-216 | the new control fields and the reason are those of `Engine.SolarAction` on the old fields |
| Coordinator.SmartEVChargingCoordinator.ControlCharger | custom_components/smart_ev_charging/coordinator.py:452-930 | the commands appended and the new session start are those of `Engine.ChargerControl` on the old fields |
| Coordinator.SmartEVChargingCoordinator.Decide | custom_components/smart_ev_charging/coordinator.py:1137-1316 | the new control fields and the reason are those of `Engine.Decision` on the old fields |
| Coordinator.SmartEVChargingCoordinator.RunCycle | custom_components/smart_ev_charging/coordinator.py:1320-1345 | the new control fields, the commands appended, the published mode, the update time and the returned data are those of `Engine.Cycle` on the old fields |
| Coordinator.SmartEVChargingCoordinator.UpdateData | custom_components/smart_ev_charging/coordinator.py:940-1345 | before the internal entities resolve, a cycle returns the stored data and changes nothing; afterwards it is one `Engine.Cycle` on `Observe` of the snapshot |
| Coordinator.SmartEVChargingCoordinator.Refresh | custom_components/smart_ev_charging/coordinator.py:961-967 | the data the host stores after a refresh is what the cycle returned, which a later not-ready cycle returns again |
| ConfigFlow.CoerceEmptyStringToNone | custom_components/smart_ev_charging/config_flow.py:90-94 | the result is never "", and differs from the input exactly when the input is "" |
| ConfigFlow.CoerceIdempotent | custom_components/smart_ev_charging/config_flow.py:90-94 | coercing twice is coercing once |
| ConfigFlow.KeyClasses | custom_components/smart_ev_charging/config_flow.py:50-83 | there are 14 stored keys, 7 optional and 4 required; every stored key falls under exactly one rule, so the loop's final fallback is never taken |
| ConfigFlow.ValidateKey | custom_components/smart_ev_charging/config_flow.py:396-437 | the per-key rule of the validation loop: save a normalised value or reject with an error; its consequences are the rule lemmas below |
| ConfigFlow.CheckKey | custom_components/smart_ev_charging/config_flow.py:396-437 | the if-chain run for one key saves or rejects exactly as the per-key rule `ValidateKey`, whose consequences the rule lemmas below state |
| ConfigFlow.ValidateInput | custom_components/smart_ev_charging/config_flow.py:395-438 | the loop stores exactly the values, and records exactly the errors, that the per-key rule gives; the form is valid exactly when no error was recorded |
| ConfigFlow.AsyncStepUser | custom_components/smart_ev_charging/config_flow.py:384-461 | without input the empty form is shown; with input the result is the validation of the initial step |
| ConfigFlow.AsyncStepInit | custom_components/smart_ev_charging/config_flow.py:285-372 | without input the empty form is shown; with input the result is the validation of the options step against the entry's data merged with its options |
| ConfigFlow.AllOrNothing | custom_components/smart_ev_charging/config_flow.py:439-454 | an entry is created exactly when no key is rejected, and then holds exactly the 14 keys; otherwise the errors are non-empty and name exactly the rejected keys |
| ConfigFlow.TargetSocRule | custom_components/smart_ev_charging/config_flow.py:404-417 | a blank target SoC is saved as None and a number in [0, 100] as that float; anything else is rejected with "invalid_target_soc"; a saved value is None or within [0, 100] |
| ConfigFlow.ScanIntervalRule | custom_components/smart_ev_charging/config_flow.py:418-431 | a blank scan interval is saved as 30 and an integer in [10, 3600] as that integer; anything else is rejected with "invalid_scan_interval"; a saved value is an integer within [10, 3600] |
| ConfigFlow.OptionalAndDebugRules | custom_components/smart_ev_charging/config_flow.py:398-403 | optional entity keys save "" and None as None and keep any other value; the debug flag is true only for the boolean true; neither ever rejects the form |
| ConfigFlow.RequiredKeysInUserStep | custom_components/smart_ev_charging/config_flow.py:432-437 | in the initial step a required key that is missing or None gives "required_field" and no entry; in a created entry every required key holds its submitted value |
| ConfigFlow.RequiredKeysInOptionsStep | custom_components/smart_ev_charging/config_flow.py:346-349 | in the options step a required key that is missing or None takes its current value, so "required_field" is never reported |
| ConfigFlow.ValidateKeyIdempotent | custom_components/smart_ev_charging/config_flow.py:297-351 | validating a value the rule has saved saves it unchanged |
| ConfigFlow.SavedTargetSocIsStable | custom_components/smart_ev_charging/config_flow.py:404-417 | a target SoC the rule saved, None or a float in [0, 100], validates to itself |
| ConfigFlow.SavedScanIntervalIsStable | custom_components/smart_ev_charging/config_flow.py:418-431 | a scan interval the rule saved, an integer in [10, 3600], validates to itself |
| ConfigFlow.ResubmitIsIdempotent | custom_components/smart_ev_charging/config_flow.py:395-454 | submitting a created entry again, on the same step, creates the same entry |
| Setup.ScanIntervalSeconds | custom_components/smart_ev_charging/__init__.py:67-85 | the interval is at least 10; a missing value, or one `int()` rejects, gives 30; an integer gives max(itself, 10), with no upper bound |
| Setup.ScanIntervalClamp | custom_components/smart_ev_charging/__init__.py:71-78 | an integer of 10 or more is used unchanged, and one below 10 becomes exactly 10 |
| Setup.ScanIntervalStable | custom_components/smart_ev_charging/__init__.py:67-85 | resolving an already resolved interval gives the same interval |
| Setup.OptionsWin | custom_components/smart_ev_charging/__init__.py:49 | in the merged configuration the options' value wins, and keys not in the options keep the data's value |
| Setup.ValidatedScanIntervalIsUsed | custom_components/smart_ev_charging/__init__.py:67-78 | an interval saved by either form is used at setup exactly as saved |
| Setup.HassData.RemoveFailedEntry | custom_components/smart_ev_charging/__init__.py:112-118 | the entry's slot is removed; one options listener is removed exactly when the slot existed and held one, and otherwise the listeners are unchanged |
| Setup.HassData.AsyncSetupEntry | custom_components/smart_ev_charging/__init__.py:58-119 | a failed first refresh removes the options listener and the entry's slot and returns false, leaving the listeners as they were; success stores a new coordinator whose interval is the resolved one |

## Left out

- The automatic power-on of the main switch (coordinator.py:536-572) is left out. It runs only when the switch reads "off", and then the early return at line 455 has already ended the call, because the cycle read the same switch as off. It could only matter if the state changed between the two reads.
- PowerValue: a power sensor whose unit attribute is present but None (or any non-string) makes `.lower()` at coordinator.py:422-424 raise AttributeError. The handler at line 433 catches only ValueError and TypeError, so in the source that whole update cycle fails. The model's units are always strings (`Present(state, unit)`), so this abort is not modelled.
- CalculateSolarChargingAction: the fallback block at coordinator.py:195-204 is left out. It is reached only when the solar session is active, and the branch before it has already taken that case.
- The fields `_solar_surplus_start_time` and `_last_price_check_time` are left out. The first is only ever cleared, the second only initialised, and neither is read.
- Logging, the debug flag and the human-readable reason strings are left out. The reason is modelled as a `Reason` value with the numbers it reports.
- Resolving the internal entities through the entity registry (coordinator.py:218-274), adding and removing state listeners (276-317) and `cleanup` are left out. The outcome of resolving is a parameter of `UpdateData`.
- The house power sensor is configured and listened to (coordinator.py:284), but no cycle reads it, so it is not part of the snapshot.
- `_get_number_value` with `is_config_key=True` is left out, because the core only calls it with entity ids.
- Each call to `dt_util.utcnow()` in a cycle is modelled as the single `now` parameter, and the session start is modelled as an integer rather than an ISO timestamp.
- Floating point is modelled as exact reals. This changes the 690 W division, the rounding to one decimal in `round(x, 1)` and comparisons near a boundary. NaN and infinity are not modelled.
- PyValue.ParseFloat and PyValue.ParseInt accept an optional sign, digits and one decimal point, after stripping white space. Exponents, "inf", "nan" and underscores are not accepted.
- Text.Lower lower-cases only ASCII and Latin-1 capitals, and Text.Strip removes only ASCII white space. Neither covers the rest of Unicode.
- A configured target SoC that `float()` cannot convert would raise at coordinator.py:1103-1107. The model takes the configured limit as an already converted `Option<real>`, which is what the configuration forms save.
- Exceptions raised by service calls (coordinator.py:932-935) are left out. Every command is modelled as sent.
- The start of a new session is not modelled as its own command. A session start appears only as the stored timestamp.
- The form schema and its selectors (`_build_common_schema`), the text of a shown form, and the unique-id abort of the initial step are left out. A shown form is modelled by its errors alone.
- Setup.HassData.AsyncSetupEntry: the first refresh is not run, and its outcome is the parameter `firstRefreshSucceeds`. The logger level set from the debug flag is left out.
- Forwarding setup to the platforms, the shutdown listener, `async_unload_entry` and the options update listener's reload are left out. So are the number, switch and sensor platforms.
