/** Setting up one configuration entry: the merged configuration, the polling
    interval it resolves to, and the per-entry slot in the host's data that a
    failed first refresh removes again. */
module Setup {
  import opened Text
  import opened PyValue
  import opened Const
  import opened ConfigFlow
  import opened Coordinator
  import Engine

  /** The polling interval in seconds: a missing value is the default, a value `int()`
      rejects is the default too, an integer below 10 is raised to 10 and any other
      integer is kept, with no upper bound. */
  function ScanIntervalSeconds(config: map<string, Value>): (n: int)
    ensures n >= MinScanIntervalSeconds
    ensures ConfScanInterval !in config ==> n == DefaultScanIntervalSeconds
    ensures ConfScanInterval in config && PyInt(config[ConfScanInterval]).None? ==> n == DefaultScanIntervalSeconds
    ensures ConfScanInterval in config && PyInt(config[ConfScanInterval]).Some? ==>
      n == Max(PyInt(config[ConfScanInterval]).value, MinScanIntervalSeconds)
  {
    var value := if ConfScanInterval in config then config[ConfScanInterval] else IntV(DefaultScanIntervalSeconds);
    match PyInt(value)
    case None => DefaultScanIntervalSeconds
    case Some(seconds) => if seconds < MinScanIntervalSeconds then MinScanIntervalSeconds else seconds
  }

  function Max(a: int, b: int): (m: int)
    ensures m >= a && m >= b && (m == a || m == b)
  {
    if a >= b then a else b
  }

  /** One host data slot: the coordinator once it exists, and whether the options listener is registered. */
  datatype EntrySlot = EntrySlot(coordinator: Option<SmartEVChargingCoordinator>, hasOptionsListener: bool)

  /** The part of the host's state that setup changes. */
  class HassData {
    /** `hass.data[DOMAIN]`, by entry id. */
    var domainData: map<string, EntrySlot>
    /** The entry ids with a registered options update listener, one occurrence per listener. */
    var updateListeners: multiset<string>

    constructor()
      ensures domainData == map[] && updateListeners == multiset{}
    {
      domainData := map[];
      updateListeners := multiset{};
    }

    /** The clean-up after a failed first refresh: the entry's options listener is
        removed if it was registered, and then the entry's slot. */
    method RemoveFailedEntry(entryId: string)
      modifies this`domainData, this`updateListeners
      ensures domainData == old(domainData) - {entryId}
      ensures entryId in old(domainData) && old(domainData)[entryId].hasOptionsListener ==>
        updateListeners == old(updateListeners) - multiset{entryId}
      ensures !(entryId in old(domainData) && old(domainData)[entryId].hasOptionsListener) ==>
        updateListeners == old(updateListeners)
    {
      if entryId in domainData {
        if domainData[entryId].hasOptionsListener {
          updateListeners := updateListeners - multiset{entryId};
        }
        domainData := domainData - {entryId};
      }
    }

    /** `async_setup_entry` up to and including the first refresh. `firstRefreshSucceeds`
        stands for whether constructing the coordinator and its first refresh completed
        without raising. */
    method AsyncSetupEntry(entryId: string, data: map<string, Value>, options: map<string, Value>,
                           firstRefreshSucceeds: bool, now: int)
      returns (ok: bool, coordinator: Option<SmartEVChargingCoordinator>)
      modifies this`domainData, this`updateListeners
      ensures ok == firstRefreshSucceeds
      ensures !ok ==>
        && coordinator.None?
        && domainData == old(domainData) - {entryId}
        && updateListeners == old(updateListeners)
      ensures ok ==>
        && coordinator.Some? && fresh(coordinator.value)
        && domainData == old(domainData)[entryId := EntrySlot(coordinator, true)]
        && updateListeners == old(updateListeners) + multiset{entryId}
        && coordinator.value.updateIntervalSeconds == ScanIntervalSeconds(MergeDicts(data, options))
        && coordinator.value.Control() == Engine.InitialState
    {
      var currentConfigForInit := MergeDicts(data, options);
      domainData := domainData[entryId := EntrySlot(None, true)];
      updateListeners := updateListeners + multiset{entryId};
      var scanIntervalSeconds := ScanIntervalSeconds(currentConfigForInit);
      if !firstRefreshSucceeds {
        RemoveFailedEntry(entryId);
        assert updateListeners == old(updateListeners) + multiset{entryId} - multiset{entryId};
        return false, None;
      }
      var c := new SmartEVChargingCoordinator(scanIntervalSeconds, now);
      domainData := domainData[entryId := EntrySlot(Some(c), true)];
      return true, Some(c);
    }
  }

  // ----- Properties -----

  /** A stored scan interval of 10 or more is used as it is, one below 10 becomes 10. */
  lemma ScanIntervalClamp(config: map<string, Value>, seconds: int)
    requires ConfScanInterval in config && config[ConfScanInterval] == IntV(seconds)
    ensures seconds >= 10 ==> ScanIntervalSeconds(config) == seconds
    ensures seconds < 10 ==> ScanIntervalSeconds(config) == 10
  {
  }

  /** Resolving the resolved interval again gives the same interval. */
  lemma ScanIntervalStable(config: map<string, Value>)
    ensures ScanIntervalSeconds(map[ConfScanInterval := IntV(ScanIntervalSeconds(config))]) == ScanIntervalSeconds(config)
  {
  }

  /** Options win over data for every key they hold; other keys keep their data value. */
  lemma OptionsWin(data: map<string, Value>, options: map<string, Value>, k: string)
    ensures k in options ==> DictGet(MergeDicts(data, options), k) == options[k]
    ensures k !in options ==> DictGet(MergeDicts(data, options), k) == DictGet(data, k)
  {
  }

  /** An interval saved by either form is used exactly at setup: the initial form's value
      when no options are stored, and the options form's value whatever the data holds. */
  lemma ValidatedScanIntervalIsUsed(userInput: map<string, Value>, current: map<string, Value>,
                                    optionsInput: map<string, Value>, data: map<string, Value>)
    ensures Validation(UserStep, userInput).CreateEntry? ==>
      var d := Validation(UserStep, userInput).data;
      ConfScanInterval in d && d[ConfScanInterval] == IntV(ScanIntervalSeconds(MergeDicts(d, map[])))
    ensures Validation(OptionsStep(current), optionsInput).CreateEntry? ==>
      var o := Validation(OptionsStep(current), optionsInput).data;
      ConfScanInterval in o && o[ConfScanInterval] == IntV(ScanIntervalSeconds(MergeDicts(data, o)))
  {
    ScanIntervalRule(UserStep, userInput);
    ScanIntervalRule(OptionsStep(current), optionsInput);
  }
}
