/** `JuwelHelialuxCoordinator` of `coordinator.py`: it owns a live client,
    merges the status and profile dictionaries into a ten-key snapshot and
    keeps the device information Home Assistant shows. The text the client
    fetches and the outcome of the undefined `device_info()` call are inputs. */
module Coordinator {
  import opened Wrappers
  import opened PyValues
  import opened LiveClient
  import opened Session

  const Domain: string := "juwel_helialux"

  /** A `device_info` entry: text, or a set of pairs (`identifiers`, `connections`). */
  datatype InfoField = Text(s: string) | Pairs(pairs: set<(string, string)>)

  /** The keys of the merged snapshot. */
  const SnapshotKeys: set<string> := {"current_profile", "device_time", "white", "blue", "green", "red",
                                      "manualColorSimulationEnabled", "manualDaytimeSimulationEnabled",
                                      "available_profiles", "full_profile_names"}

  /** The three `device_info` keys an update may change. */
  const VersionKeys: set<string> := {"sw_version", "hw_version", "model"}

  /** The device information before the first fetch. */
  function InitialDeviceInfo(tankName: string, url: string): (r: map<string, InfoField>)
    ensures r.Keys == {"identifiers", "name", "manufacturer", "model", "sw_version", "hw_version",
                       "configuration_url", "connections"}
    ensures r["identifiers"] == Pairs({(Domain, tankName)}) && r["name"] == Text(tankName)
    ensures r["manufacturer"] == Text("Juwel") && r["model"] == Text("Helialux")
    ensures r["sw_version"] == Text("Unknown") && r["hw_version"] == Text("Unknown")
    ensures r["configuration_url"] == Text(url) && r["connections"] == Pairs({})
  {
    map["identifiers" := Pairs({(Domain, tankName)}), "name" := Text(tankName), "manufacturer" := Text("Juwel"),
        "model" := Text("Helialux"), "sw_version" := Text("Unknown"), "hw_version" := Text("Unknown"),
        "configuration_url" := Text(url), "connections" := Pairs({})]
  }

  /** `info.get(key, default)` on the fetched device information. */
  function InfoGet(info: map<string, string>, key: string, default: string): string {
    if key in info then info[key] else default
  }

  /** The device information after a fetched `info`: an empty (falsy) `info`
      changes nothing; otherwise the versions and the model are taken from
      it, the versions defaulting to `versionDefault`, the model to "Unknown". */
  function UpdatedInfo(deviceInfo: map<string, InfoField>, info: map<string, string>, versionDefault: string)
    : (r: map<string, InfoField>)
    ensures info == map[] ==> r == deviceInfo
    ensures info != map[] ==> r.Keys == deviceInfo.Keys + VersionKeys
    ensures info != map[] ==>
      && r["sw_version"] == Text(if "firmware_version" in info then info["firmware_version"] else versionDefault)
      && r["hw_version"] == Text(if "hardware_version" in info then info["hardware_version"] else versionDefault)
      && r["model"] == Text(if "device_type" in info then info["device_type"] else "Unknown")
    ensures forall k :: k in deviceInfo && k !in VersionKeys ==> k in r && r[k] == deviceInfo[k]
  {
    if info == map[] then deviceInfo
    else deviceInfo["sw_version" := Text(InfoGet(info, "firmware_version", versionDefault))]
                   ["hw_version" := Text(InfoGet(info, "hardware_version", versionDefault))]
                   ["model" := Text(InfoGet(info, "device_type", "Unknown"))]
  }

  /** Applying the same fetched information twice is applying it once. */
  lemma UpdatedInfoIdempotent(deviceInfo: map<string, InfoField>, info: map<string, string>, versionDefault: string)
    ensures UpdatedInfo(UpdatedInfo(deviceInfo, info, versionDefault), info, versionDefault)
         == UpdatedInfo(deviceInfo, info, versionDefault)
  {
  }

  /** Where a snapshot key is read from: a key of the status or of the
      profile dictionary, with its default. */
  datatype Source = FromStatus(key: string, default: Value) | FromProfiles(key: string, default: Value)

  /** The table of the merge. */
  function SourceOf(k: string): (src: Source)
    ensures k in SnapshotKeys ==> (src.FromProfiles? <==> k == "available_profiles" || k == "full_profile_names")
    ensures k in SnapshotKeys && src.FromProfiles? ==> src.key == k && src.default == VList([])
  {
    if k == "current_profile" then FromStatus("currentProfile", VStr("offline"))
    else if k == "device_time" then FromStatus("deviceTime", VStr("00:00"))
    else if k == "white" then FromStatus("currentWhite", VInt(0))
    else if k == "blue" then FromStatus("currentBlue", VInt(0))
    else if k == "green" then FromStatus("currentGreen", VInt(0))
    else if k == "red" then FromStatus("currentRed", VInt(0))
    else if k == "manualColorSimulationEnabled" then FromStatus("manualColorSimulationEnabled", VBool(false))
    else if k == "manualDaytimeSimulationEnabled" then FromStatus("manualDaytimeSimulationEnabled", VBool(false))
    else if k == "available_profiles" then FromProfiles("available_profiles", VList([]))
    else FromProfiles("full_profile_names", VList([]))
  }

  /** `.get(key, default)` on the dictionary the source names. */
  function Read(status: map<string, Value>, profiles: map<string, Value>, src: Source): Value {
    match src
    case FromStatus(key, default) => Get(status, key, default)
    case FromProfiles(key, default) => Get(profiles, key, default)
  }

  /** The merge: every snapshot key read through the table. */
  function Merge(status: map<string, Value>, profiles: map<string, Value>): (r: map<string, Value>)
    ensures r.Keys == SnapshotKeys
  {
    map k | k in SnapshotKeys :: Read(status, profiles, SourceOf(k))
  }

  /** The snapshot keys, their sources and their defaults. */
  lemma MergeEntries(status: map<string, Value>, profiles: map<string, Value>)
    ensures var r := Merge(status, profiles);
      && r["current_profile"] == Get(status, "currentProfile", VStr("offline"))
      && r["device_time"] == Get(status, "deviceTime", VStr("00:00"))
      && r["white"] == Get(status, "currentWhite", VInt(0)) && r["blue"] == Get(status, "currentBlue", VInt(0))
      && r["green"] == Get(status, "currentGreen", VInt(0)) && r["red"] == Get(status, "currentRed", VInt(0))
      && r["manualColorSimulationEnabled"] == Get(status, "manualColorSimulationEnabled", VBool(false))
      && r["manualDaytimeSimulationEnabled"] == Get(status, "manualDaytimeSimulationEnabled", VBool(false))
      && r["available_profiles"] == Get(profiles, "available_profiles", VList([]))
      && r["full_profile_names"] == Get(profiles, "full_profile_names", VList([]))
  {
  }

  /** The snapshot of two empty dictionaries is the table of defaults. */
  lemma MergeDefaults()
    ensures Merge(map[], map[]) == map[
      "current_profile" := VStr("offline"), "device_time" := VStr("00:00"),
      "white" := VInt(0), "blue" := VInt(0), "green" := VInt(0), "red" := VInt(0),
      "manualColorSimulationEnabled" := VBool(false), "manualDaytimeSimulationEnabled" := VBool(false),
      "available_profiles" := VList([]), "full_profile_names" := VList([])]
  {
  }

  /** A status dictionary of the live client is copied without defaults: the
      channels are renamed one to one and their values kept. */
  lemma MergeOfLiveStatus(fetched: Option<string>, profiles: map<string, Value>)
    requires LiveStatus(fetched).Success? && LiveStatus(fetched).value.Some?
    ensures var status := LiveStatus(fetched).value.value;
      var r := Merge(status, profiles);
      && r["current_profile"] == status["currentProfile"] && r["device_time"] == status["deviceTime"]
      && r["white"] == status["currentWhite"] && r["blue"] == status["currentBlue"]
      && r["green"] == status["currentGreen"] && r["red"] == status["currentRed"]
      && r["manualColorSimulationEnabled"] == status["manualColorSimulationEnabled"]
      && r["manualDaytimeSimulationEnabled"] == status["manualDaytimeSimulationEnabled"]
  {
  }

  /** The profile keys of the snapshot are not among the keys `get_profiles`
      produces, so whatever the controller reports, both lists merge to []. */
  lemma MergeOfLiveProfiles(status: map<string, Value>, fetched: Option<string>)
    requires LiveProfiles(fetched).Success?
    ensures var profiles := if LiveProfiles(fetched).value.Some? then LiveProfiles(fetched).value.value else map[];
      Merge(status, profiles)["available_profiles"] == VList([])
      && Merge(status, profiles)["full_profile_names"] == VList([])
  {
  }

  /** A result of `get_status` or `get_profiles` that is not a dictionary
      (None) counts as {}. */
  function DictOrEmpty(r: Option<map<string, Value>>): (d: map<string, Value>)
    ensures r.None? ==> d == map[]
    ensures r.Some? ==> d == r.value
  {
    if r.Some? then r.value else map[]
  }

  /** What `_async_update_data` returns: {} when anything raised (and not
      the previous snapshot), and the merge otherwise. */
  function Snapshot(status: Result<Option<map<string, Value>>, Error>,
                    profiles: Result<Option<map<string, Value>>, Error>,
                    info: Result<map<string, string>, Error>): (r: map<string, Value>)
    ensures (status.Failure? || profiles.Failure? || info.Failure?) <==> r == map[]
    ensures r != map[] ==> r == Merge(DictOrEmpty(status.value), DictOrEmpty(profiles.value))
  {
    if status.Failure? || profiles.Failure? || info.Failure? then map[]
    else Merge(DictOrEmpty(status.value), DictOrEmpty(profiles.value))
  }

  /** The device information after `_async_update_data`: only a fetch that
      got as far as `device_info()` without raising updates it. */
  function SnapshotInfo(deviceInfo: map<string, InfoField>,
                        status: Result<Option<map<string, Value>>, Error>,
                        profiles: Result<Option<map<string, Value>>, Error>,
                        info: Result<map<string, string>, Error>): (r: map<string, InfoField>)
    ensures status.Failure? || profiles.Failure? || info.Failure? ==> r == deviceInfo
    ensures !(status.Failure? || profiles.Failure? || info.Failure?) ==> r == UpdatedInfo(deviceInfo, info.value, "0.0.0.0")
    ensures forall k :: k in deviceInfo && k !in VersionKeys ==> k in r && r[k] == deviceInfo[k]
  {
    if status.Failure? || profiles.Failure? || info.Failure? then deviceInfo
    else UpdatedInfo(deviceInfo, info.value, "0.0.0.0")
  }

  class JuwelHelialuxCoordinator {
    const tankHost: string
    const tankProtocol: string
    const helialux: Controller
    /** The last snapshot; the profile select writes `current_profile` into it. */
    var data: map<string, Value>
    var deviceInfo: map<string, InfoField>

    predicate Valid()
      reads this, helialux
    {
      helialux.Valid()
    }

    constructor(tankHost: string, tankProtocol: string, tankName: string)
      ensures this.tankHost == tankHost && this.tankProtocol == tankProtocol
      ensures fresh(helialux) && helialux.url == tankProtocol + "://" + tankHost
      ensures helialux.session.NoSession? && helialux.posts == []
      ensures data == map[]
      ensures deviceInfo == InitialDeviceInfo(tankName, tankProtocol + "://" + tankHost)
      ensures Valid()
    {
      this.tankHost := tankHost;
      this.tankProtocol := tankProtocol;
      var url := tankProtocol + "://" + tankHost;
      helialux := new Controller(url);
      data := map[];
      deviceInfo := InitialDeviceInfo(tankName, url);
    }

    /** The three in-place key updates shared by both refreshes. */
    method ApplyInfo(info: map<string, string>, versionDefault: string)
      modifies this
      ensures deviceInfo == UpdatedInfo(old(deviceInfo), info, versionDefault)
      ensures data == old(data)
    {
      if info != map[] {
        deviceInfo := deviceInfo["sw_version" := Text(InfoGet(info, "firmware_version", versionDefault))];
        deviceInfo := deviceInfo["hw_version" := Text(InfoGet(info, "hardware_version", versionDefault))];
        deviceInfo := deviceInfo["model" := Text(InfoGet(info, "device_type", "Unknown"))];
      }
    }

    /** `_async_update_data`: get the status, then the profiles, then the
        device information; every exception is caught and gives {}. */
    method UpdateData(statusText: Option<string>, profilesText: Option<string>, info: Result<map<string, string>, Error>)
      returns (r: map<string, Value>)
      requires Valid()
      modifies this, helialux
      ensures Valid()
      ensures r == Snapshot(LiveStatus(statusText), LiveProfiles(profilesText), info)
      ensures deviceInfo == SnapshotInfo(old(deviceInfo), LiveStatus(statusText), LiveProfiles(profilesText), info)
      ensures data == old(data) && helialux.posts == old(helialux.posts)
      ensures helialux.session == Acquire(old(helialux.session), old(helialux.created)).0
      ensures helialux.created == old(helialux.created) + Created(old(helialux.session))
    {
      var status := helialux.GetStatus(statusText);
      if status.Failure? {
        return map[];
      }
      var statusData := DictOrEmpty(status.value);
      var profiles := helialux.GetProfiles(profilesText);
      if profiles.Failure? {
        return map[];
      }
      var profileData := DictOrEmpty(profiles.value);
      if info.Failure? {
        return map[];
      }
      ApplyInfo(info.value, "0.0.0.0");
      r := Merge(statusData, profileData);
    }

    /** A refresh stores what `_async_update_data` returns as the new data. */
    method Refresh(statusText: Option<string>, profilesText: Option<string>, info: Result<map<string, string>, Error>)
      requires Valid()
      modifies this, helialux
      ensures Valid()
      ensures data == Snapshot(LiveStatus(statusText), LiveProfiles(profilesText), info)
      ensures deviceInfo == SnapshotInfo(old(deviceInfo), LiveStatus(statusText), LiveProfiles(profilesText), info)
      ensures helialux.posts == old(helialux.posts)
      ensures helialux.session == Acquire(old(helialux.session), old(helialux.created)).0
      ensures helialux.created == old(helialux.created) + Created(old(helialux.session))
    {
      data := UpdateData(statusText, profilesText, info);
    }

    /** `async_config_entry_first_refresh`: a refresh, then one more
        `device_info()` applied with "Unknown" as the version default; an
        exception from that second call is not caught. */
    method FirstRefresh(statusText: Option<string>, profilesText: Option<string>,
                        refreshInfo: Result<map<string, string>, Error>, info: Result<map<string, string>, Error>)
      returns (raised: Option<Error>)
      requires Valid()
      modifies this, helialux
      ensures Valid()
      ensures data == Snapshot(LiveStatus(statusText), LiveProfiles(profilesText), refreshInfo)
      ensures var refreshed := SnapshotInfo(old(deviceInfo), LiveStatus(statusText), LiveProfiles(profilesText), refreshInfo);
        deviceInfo == if info.Failure? then refreshed else UpdatedInfo(refreshed, info.value, "Unknown")
      ensures raised == if info.Failure? then Some(info.error) else None
      ensures helialux.posts == old(helialux.posts)
      ensures helialux.session == Acquire(old(helialux.session), old(helialux.created)).0
      ensures helialux.created == old(helialux.created) + Created(old(helialux.session))
    {
      Refresh(statusText, profilesText, refreshInfo);
      if info.Failure? {
        return Some(info.error);
      }
      ApplyInfo(info.value, "Unknown");
      raised := None;
    }
  }
}
